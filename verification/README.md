# no-mistakes: custody recovery, structured output, replay safety and stream reassembly

A Dafny model of four parts of the no-mistakes tool, with proofs of what those parts promise.
`dafny verify dfyconfig.toml` checks all of it.

**Custody recovery** (`Git`, `Refs`, `Runs`, `World`, `Classify`, `Machine`, `Adopt`, `KeepLocal`, `Rebind`,
`Recovery`, `Publication`). Branch custody moves between a worktree repository, a bare gate repository and a table
of run records. A `Host` runs one recovery command. Every git or database command is one tick; before each tick any
number of actions by the user or another process may have happened (commit, edit, checkout, push to the gate, drop a
branch, rewrite a row, rewrite the remote), and the command itself may then be refused. Others may do anything to
branches, HEAD, index, files and rows; they only cannot delete objects or move an anchor under `refs/no-mistakes/`.
The host records its history. `Host.Valid()` says that every program step in that history was lawful in the state it
met and warranted by what came before. Lawful: it lost no commit; a file it changed was unmodified, and what a changed
file or index entry held is still in a kept commit; it left HEAD, worktree branches, index and files alone under
keep-local; and it moved a push binding only after the head it stops recording was anchored.
Warranted: a worktree branch was swapped only to a head that carries the work of the head it left - by descent, by
having every change made since a common ancestor, or by having the tree of a commit that does, was review-approved for
the run and is in the gate - or back again after such a move of the same history; and the lane was put back only after
the program had moved it. So the safety rules hold of every interleaving, and by `LawfulInTwo` of every sequence of
commands. Three things are read off the record: where each branch may end (`Carried`), that no program step but the
stamp follows the look a stamp rests on (`Adopted`, `ReadBack`), and what can be lost (`NoCommitLost`). `Quiet()` means
that nobody interferes and nothing is refused; exact outcomes are stated under it. `Alone()` means only that nobody
interferes.

**Structured output** (`Decimal`, `JsonValues`, `Schemas`, `Decoding`, `Writing`, `Text`, `Extraction`, `Answers`).
Exact equality of JSON numbers (RFC 8259 section 6), the validator and the schema rewrites that must agree with it, the
brace and fence scanners, and the choice of one answer from an agent's text. The JSON decoder is written out, so the
scanner is related to decoding itself and not to an assumption about it; `Writing` has the printed forms the decoder is
tied to, and what text around a value does to decoding it. `Answers` says which of several texts is the answer, and why
there is none, in terms of the texts alone.

**Replay safety** (`Replay`). Three nested re-run mechanisms over scripted opencode sessions. A session is everything
the server sends for the turn and the prefix of it the client read; whether a tool ran is decided by the former, the
evidence by the latter. Whether a failed turn ran tools travels only as markers inside the error tree.

**Streams** (`Streaming`, `Capturing`). Reassembly and incremental emission of a streamed answer, and a capture buffer.

## Where the code and its promises differ

- A plain recovery that status offers is refused when the preserved head has to be adopted and the anchor for the local
  head names another commit. `TakenAnchorBlocksOffer` gets there by an adoption interrupted after it made the anchor and
  one more local commit. `OfferHonoured` gives the exact condition: the offered command succeeds if and only if the
  picked run is stranded and that anchor is free. Of rows as the push writers leave them the picked run always is
  stranded (`BindingsStayWhole`, `WholeBindingIsStranded`).
- Status can withhold a recovery that would go through. `OfferExact` and `ArchiveOfferExact` say when which command is
  offered, `RecoverCustody` when which command succeeds, and `WithheldMeans` that the plain command succeeds unoffered
  only if the gate lacks the local head or the local work is carried by the approved head alone.
- Putting the gate back after a failed stamp can drop the kept head: `ReturnedHeadCanBeLost` is a lawful history from a
  bound archive for which status offers the keep-local return, and in which somebody else only resets the local branch.
  It loses nothing exactly when, before the step, another durable ref or a detached HEAD reaches that head or it lies
  below the head put back (`RestoreKeepsExactly`). This is the only step outside the no-loss rule, it happens only with
  bound archives, and a return nobody disturbs never loses anything by it (`ReturnFromArchive`).
- A rebind whose row was moved is reported as such only if inspection still picks that run and finds it bound
  (`Confirms`, exact in `RecoverRemoteRewritten`); otherwise a change of ownership is reported.
- A terminal head proved by the run's own anchor does not need a clean worktree to be proved, but does to be recorded:
  `Provable` is the exact condition, `DirtyTreeBlocksProvedHead` a state where the two differ.
- A 1.x stream that ends cleanly without `session.idle` reads as proof that no tool ran. `EvidenceIsRight1` shows that
  the evidence is right whatever the server did if and only if the stream did not end unseen, `MissedIdleIsRetried` is a
  turn that is retried after a tool ran. On 2.x the evidence is always right (`EvidenceIsRight2`).
- The codex rewrite replaces `required` by the declared properties, so a requirement on an undeclared property is lost
  (`UndeclaredRequirementIsLost`); `CodexMeaning` says exactly what is left. Filling changes an answer that an enum
  lists as an object without its optional properties (`ObjectEnumFails`), and widening turns an empty type list into
  null alone (`AllowNullExact`, `OptionalAccepts`). Null widening is absorbed by the codex rewrite in one order only;
  `WidenThenCodex` gives the exact condition for the other order, `OrderMatters` a schema and an answer that tell the
  two apart.

## Model

| member | source | states |
|---|---|---|
| Git.ReachesAntisymmetric | internal/branchsync/sync.go:2952-2966 | history is acyclic, so the order in which the two ancestry questions are asked cannot matter |
| Git.ContainmentExact | internal/branchsync/sync.go:2311-2336 | the merge proof passes if and only if every path the local head changed since the base has the same content in the preserved head |
| Git.CleanCheckout | internal/branchsync/sync.go:1443-1450 | from a clean tree the two-tree checkout is never refused and lands exactly on the target |
| Git.CheckoutOverwritesOnlyCommitted | internal/branchsync/sync.go:1443-1450 | any file the checkout changes was unmodified and held the content of the commit being left |
| Classify.ContainsWorkIsReal | internal/branchsync/sync.go:1413-1422 | a passed containment proof means the preserved head has every change the local head made since a real common ancestor |
| Classify.ReviewedProofIsReal | internal/branchsync/sync.go:1424-1429 | trust in a rewritten head goes through the reviewed commit itself: the repository holds it, it has the target's tree, and it descends from the local head or has all its changes |
| Classify.DroppedEditIsNotCarried | internal/branchsync/sync.go:1413-1429 | what carrying forbids: a head with an edit is carried neither by its parent nor by a sibling without that edit |
| Classify.RelationExact | internal/branchsync/sync.go:2952-2966 | the relation is decided by ancestry alone |
| Runs.SelectRun | internal/branchsync/sync.go:2049-2079 | inspection's one-pass loop returns the newest run holding the branch, else the newest released one |
| Runs.SelectionSpec | internal/branchsync/sync.go:2049-2079 | if any run holds the branch the pick holds it and no newer run does |
| Runs.ReleasedOnlyWithoutOwner | internal/branchsync/sync.go:2049-2079 | a released run is picked only when none holds the branch, and then the newest |
| Runs.CollectStack | internal/branchsync/sync.go:2566-2596 | the collecting loop returns the stack of stranded, not superseded runs |
| Runs.StackMembership | internal/branchsync/sync.go:2566-2596 | a run is in the stack if and only if it is stranded, on the branch and not superseded |
| Runs.StrandedPickHeadsStack | internal/branchsync/sync.go:2563-2595 | a stranded pick is the first element of the stack |
| Runs.OvertakenExact | internal/branchsync/sync.go:2420-2451 | a stranded run is superseded if and only if the newest newer push as it stands went to the same target, the gate branch is still there, and that head contains the owed one |
| Runs.HoldersExact | internal/branchsync/sync.go:2049-2079 | told by the rows and the gate alone: which runs hold a branch, which belong to the stack, and which may speak for a branch nobody holds |
| World.AnchoredCasWorkIsSafe | internal/branchsync/sync.go:1474-1500 | the branch swap loses no commit once the old head is anchored |
| World.AnchoredCasGateIsSafe | internal/branchsync/sync.go:1182-1229 | the gate swap loses no commit once what the lane held is anchored, or it held nothing |
| World.RestoreKeepsExactly | internal/branchsync/sync.go:1341-1348 | putting the gate back loses nothing if and only if, beforehand, another durable ref or a detached HEAD reaches the dropped head or it lies below the head put back |
| World.ReadTreeIsSafe | internal/branchsync/sync.go:1524-1533 | switching index and files changes no file with an uncommitted edit and no index entry whose content is in no kept commit |
| World.FastForwardIsSafe | internal/branchsync/sync.go:1366-1376 | a strict fast-forward loses no commit, no edit and nothing staged |
| World.OnlyOthersLoseCommits | internal/branchsync/sync.go:710-790 | in a history of safe steps a commit can only be lost by somebody else's move |
| Machine.LawfulIsSafe | internal/branchsync/sync.go:823-1086 | in every interleaving and with any bound archives a step of a command loses no commit, no edit and nothing staged, except a restore that drops the returned head |
| Machine.NoCommitLost | internal/branchsync/sync.go:710-790 | a commit kept at one point of a command is kept at every later one unless somebody else's move dropped it or the gate was put back over a head above it kept nowhere else |
| Machine.OnlyOthersLose | internal/branchsync/sync.go:710-790 | without bound archives only somebody else's move loses a commit |
| Machine.OnlyRestoreLoses | internal/branchsync/sync.go:1278-1351 | when nobody else acts, a commit can only go where the gate was put back |
| Recovery.ReturnedHeadCanBeLost | internal/branchsync/sync.go:1278-1351 | a lawful history, from a sound state with a bound archive for which status offers the keep-local return, that loses the returned head where the gate is put back |
| Machine.LawfulInTwo | internal/branchsync/sync.go:710-790 | one command after another is again a lawful history |
| Machine.LandingsBacked | internal/branchsync/sync.go:1494-1500 | every forward move of a worktree branch in a lawful history rests on a containment proof, direct or through a head the gate holds and a row named as approved |
| Machine.OneMoveCarries | internal/branchsync/sync.go:823-1086 | after a command that moved at most one branch, every worktree branch is where it was, where somebody else put it, or at a head proven to carry the work it left |
| Machine.SameActsOnlyStamps | internal/branchsync/sync.go:1369-1384 | from a look after which the count of other program steps stands still, the program only stamps |
| Machine.KeepLocalSparesWorktree | internal/branchsync/sync.go:1167-1272 | no step of a keep-local command changes HEAD, a worktree branch, the index or a file |
| Machine.Host.Do | internal/branchsync/sync.go:710-790 | a step is taken only if it is lawful in the current state and warranted by the history, and is recorded |
| Machine.Host.Tick | internal/branchsync/sync.go:710-790 | between two commands exactly the scripted actions of others happen; only they change what a worktree branch names, to what they wrote |
| Machine.Host.PreserveAnchor | internal/custody/refs.go:46-64 | an anchor is created only if absent; success means it names exactly the target |
| Machine.Host.NothingLost | internal/branchsync/sync.go:710-790 | whatever a command has done so far, only others or a restore of the gate can have lost a commit |
| Machine.Host.MovedAtMostOnce | internal/branchsync/sync.go:823-1086 | the containment theorem at the end of a command, for every branch |
| Adopt.Finish | internal/branchsync/sync.go:1821-1834 | custody is stamped once or not at all, and nothing else changes without interference |
| Adopt.VerifyAndFinish | internal/branchsync/sync.go:1369-1384 | custody is stamped only after HEAD was seen at the target and then the tree seen clean, and from the first look on the program does nothing but stamp |
| Adopt.RecoverFastForward | internal/branchsync/sync.go:1355-1385 | undisturbed it succeeds from a clean head behind the preserved one and ends on it, clean; success implies the two looks, and at most one branch is moved, forward |
| Adopt.SwapBranch | internal/branchsync/sync.go:1494-1500 | the swap happens only from the observed head, which was found there or put there by somebody else, with both heads anchored, to a head backed by a containment proof |
| Adopt.SwitchFiles | internal/branchsync/sync.go:1516-1534 | on any refusal the branch is swapped back or stands at a value somebody else gave it; undisturbed it is back at the local head and no file changed |
| Adopt.AdoptFromSettled | internal/branchsync/sync.go:1443-1450 | from a clean tree, swap and switch end on a clean preserved head |
| Adopt.AdoptPreserved | internal/branchsync/sync.go:1457-1554 | every exit leaves the branch at the head found, at a value somebody else gave it, or at the preserved head with the old one anchored; it stamps only after exactly this move, on the proof it was given; undisturbed it succeeds if and only if the local anchor is free, and ends clean on the preserved head |
| KeepLocal.PreserveCandidates | internal/branchsync/sync.go:1837-1864 | success pins every head the gate holds, and comes undisturbed if and only if every anchor is free and the gate holds every head; without interference only anchors are added |
| KeepLocal.GuardGateHead | internal/branchsync/sync.go:1182-1199 | success means the independently moved gate head is anchored; undisturbed it comes if and only if that head is accounted for or can be |
| KeepLocal.StageHead | internal/branchsync/sync.go:1205-1223 | the kept head's objects reach the gate and nothing but the staging ref and the gate's objects changes |
| KeepLocal.SwapLane | internal/branchsync/sync.go:1224-1232 | the lane moves only from the expected value; a concurrent push wins |
| KeepLocal.MoveLane | internal/branchsync/sync.go:1175-1233 | guard, stage and swap together move the lane to the kept head and touch nothing else; undisturbed if and only if the gate head can be secured |
| KeepLocal.ReadBackAndFinish | internal/branchsync/sync.go:1237-1249 | custody is stamped only after the gate branch was read back at the kept head, and from that look on the program does nothing but stamp |
| KeepLocal.ReturnAtLocal | internal/branchsync/sync.go:1167-1250 | a returned custody implies the read-back; at most the lane is moved, once; undisturbed it succeeds if and only if rows, anchors and heads check out, and then the gate branch is at the kept head |
| KeepLocal.ReturnAtCurrentHead | internal/branchsync/sync.go:1256-1272 | the same, with the gate head read at the start and allowed to be absent |
| KeepLocal.RestoreLane | internal/branchsync/sync.go:1341-1349 | the lane is put back only where this command moved it from; the reverse swap restores the exact old gate head unless git refuses it |
| KeepLocal.ReturnFromArchive | internal/branchsync/sync.go:1278-1351 | left alone it loses no commit, restore included, and a failed return leaves the gate branch exactly as it was unless the rollback is refused; a verified archive is returned |
| Rebind.Refresh | internal/branchsync/sync.go:353-478 | the fresh check moves no branch; in every interleaving a reported rewrite rests on an inspection, after it the row with that very binding and no push under way, and after that the remote at the live head; undisturbed, ancestry alone tells an advance from a rewrite |
| Rebind.ReadLive | internal/branchsync/sync.go:384-456 | the live head is confirmed by fetching it; only the private mirror and objects change |
| Rebind.PinSuperseded | internal/branchsync/sync.go:1695-1740 | success anchors the superseded push head under its own generation, in the gate whenever there is one; undisturbed it succeeds if and only if nothing conflicts and some repository holds the head |
| Rebind.SwapBinding | internal/db/run.go:859-883 | the binding moves only with its superseded head anchored, by a compare-and-swap of the whole row |
| Rebind.RecoverRemoteRewritten | internal/branchsync/sync.go:1572-1650 | no branch or file changes and no run gets stranded; a live binding is passed on, a rewritten one rebound exactly when its head can be anchored and nothing changed, anything else refused; it is reported as rebound if and only if the new binding is confirmed by inspection; keep-local never rebinds; in every interleaving a rebound push was swapped on a matching row, after the rewrite was seen, the remote was at the live head again and the worktree clean at the head first seen |
| Rebind.RebindStrandsNothing | internal/db/run.go:859-883 | moving a binding strands no run |
| Rebind.RebindTakesExact | internal/db/run.go:859-883 | a rebind takes exactly the row whose whole binding, head, status and custody it was told, with no push, retired PR or other active run on the branch; it sets the live head under the next generation and touches no other row |
| Rebind.GenerationsStrictlyRise | internal/branchsync/sync.go:1572-1650 | over any lawful history in which others write rows without setting this run's generation back, the generations of its rebinds strictly rise |
| Rebind.RowWriteRaises | internal/db/run.go:803-831 | a write that keeps every row with no lower generation, as all push writers do, sets no run's generation back |
| Rebind.SupersededHeadsStayAnchored | internal/branchsync/sync.go:1804-1806 | every push head ever superseded is still anchored at the end, under its own generation |
| Recovery.InspectNow | internal/branchsync/sync.go:2012-2079 | inspection reports the observed worktree and the selected run |
| Recovery.StampUnderLock | internal/branchsync/sync.go:888-932 | an unverified head is stamped only with the gate branch and its anchor verified under lock, and stays anchored; undisturbed the stamp fails whenever the row or the locked refs disagree |
| Recovery.VerifyHead | internal/branchsync/sync.go:880-938 | a head is declared verified only when the gate holds it; undisturbed a refused proof keeps its reason, and a proved head is recorded, in exactly that run's row, if and only if the worktree is settled where the proof needs the locks and the row still matches |
| Recovery.ProofExact | internal/branchsync/sync.go:1123-1165 | an unverified head is proved if and only if the gate branch is at or above it, its own anchor holds it above the gate branch, or it is the approved head whose tree the gate branch has and which carries the local work; which head is proved, and which refusal given otherwise |
| Recovery.StampsExact | internal/db/run.go:893-1196 | what each stamp writes to a row, which rows it takes, and that nothing else of any row changes |
| Recovery.DirtyTreeBlocksProvedHead | internal/branchsync/sync.go:1123-1165 | a concrete dirty worktree whose head the anchor proves and recovery cannot record |
| Recovery.ReturnReachable | internal/branchsync/sync.go:991-1007 | undisturbed a head already in the local history is pinned and custody returned if and only if no anchor conflicts |
| Recovery.ImportPreserved | internal/branchsync/sync.go:1009-1043 | success means the worktree anchor names the preserved head, and comes undisturbed if and only if the gate has it and no anchor conflicts; only anchors and objects are added |
| Recovery.SettleHeads | internal/branchsync/sync.go:1045-1085 | undisturbed, the answer is the documented decision matrix by relation, worktree and keep-local; under interference at most one branch is moved and looked at before the stamp |
| Recovery.Preflight | internal/branchsync/sync.go:943-969 | trust names the run's own approved head, which the gate holds and which carries the local work into the preserved tree; undisturbed the evidence is the same that classification reads |
| Recovery.ArchiveExit | internal/branchsync/sync.go:970-989 | a plain recovery of an archive-backed run does nothing at all; keep-local succeeds, and left alone loses no commit |
| Recovery.RecoverOrdinary | internal/branchsync/sync.go:991-1085 | undisturbed, with or without keep-local, custody is returned if and only if the head is in the local history and its anchors are free, or the gate holds it and either (plain) the clean tree is behind it or can adopt it on proven containment, or (keep-local) the lane may move and the row still owes; then the worktree, or under keep-local the gate branch, is at the named head |
| Recovery.EligibleStackIsReturnable | internal/branchsync/sync.go:2544-2613 | a stack classification calls eligible passes every later check of the keep-local return |
| Recovery.StackExact | internal/branchsync/sync.go:2566-2613 | the stack is eligible if and only if every member is verified with free anchors and the gate head is absent, the local head, one of the stack, or can be anchored |
| Recovery.ReturnStack | internal/branchsync/sync.go:871-879 | the whole stack is returned at once, after the gate read-back |
| Recovery.RecoverStranded | internal/branchsync/sync.go:871-1086 | for a terminal stranded run the offered command succeeds, and any command succeeds if and only if Recoverable holds of refs, objects and rows |
| Recovery.ReturnDrains | internal/branchsync/sync.go:1866-1879 | giving a stranded run back strands nothing and takes one run off the branch |
| Recovery.RecoverAlone | internal/branchsync/sync.go:823-1086 | an undisturbed recovery stays on its branch, strands nothing, takes a run off the branch when it stamps, and stamps exactly when the offer goes through |
| Recovery.RecoverAll | internal/branchsync/sync.go:2411-2419 | recoveries run one after another as status offers them, each from where the last one ended and undisturbed, return custody no more often than runs are stranded, and stop where nothing is offered or the offer cannot go through; so, without archives, where neither an eligible stack nor evidence for a plain recovery that goes through is left |
| Recovery.OfferExact | internal/branchsync/sync.go:2470-2702 | for a stuck run without archive status offers keep-local if and only if a head of the stack is gone and the stack can be returned; else plain if and only if the head is in the local history, or the tree is clean, the gate has both heads and the later one has the local work - with anchors free and no half adoption, and an unverified head proved |
| Recovery.ArchiveOfferExact | internal/branchsync/sync.go:2623-2760 | with archive records status offers keep-local on exactly one record that proves everything asked of it, plain where the gate shows that the later head has the local work, and nothing otherwise |
| Recovery.WithheldMeans | internal/branchsync/sync.go:2683-2702 | where a plain recovery would go through unoffered, the gate lacks the local head or only the approved head carries the local work |
| Recovery.RecoverCustody | internal/branchsync/sync.go:823-1086 | in every interleaving: at most one stamp, which implies success; whatever moved belongs to the run inspection picked at the local head it was picked with; at most one branch is moved, and looked at before the stamp; every worktree branch is where it was, where somebody else put it, or at that run's preserved head, proven to carry the work left. Undisturbed no run becomes stranded, each stamp drains the branch, the offered command returns custody exactly when OfferHonoured says, and in both modes custody of a stuck run is returned if and only if Recoverable holds of refs, objects and rows, with the branch or lane where Ended says; a branch nobody holds is answered as already yours, a published run by what its remote shows |
| Recovery.ComparableExact | internal/branchsync/sync.go:2012-2079 | whether a picked run's remote can be compared at all, told by its row, the worktree and the target |
| Recovery.TakenAnchorBlocksOffer | internal/branchsync/sync.go:1470-1486 | an offer that goes through, an adoption interrupted once it made the local anchor, one more local commit: the same offer is made and refused for the anchor |
| Recovery.BindingsStayWhole | internal/db/run.go:803-831 | the push writers set a binding whole, and no step of a recovery tears one apart |
| Recovery.WholeBindingIsStranded | internal/branchsync/sync.go:2117-2160 | with a whole binding a terminal run that holds its branch is stranded |
| Publication.SwapPublished | internal/branchsync/sync.go:1955-1967 | the lane moves only after its old head is anchored |
| Publication.ImportKeepsInspection | internal/branchsync/sync.go:1941-1953 | importing objects into the gate cannot change which custody-returned run speaks for the branch |
| Publication.AwaitsExact | internal/branchsync/sync.go:1886-1900 | an inspection waits for adoption if and only if the picked run was given back before it was published, the tree is clean and neither head reaches the other |
| Publication.AdoptPublished | internal/branchsync/sync.go:1886-1972 | in every interleaving the lane moves at most once, from the recorded head the inspection saw, while the run was given back unpublished, the tree clean and neither head reached the other, after the target was seen at the local head and all of this was found again; undisturbed it adopts if and only if custody is returned, neither head reaches the other, tree is clean, the lane is at the recorded head, the target at the local one and the anchor free; then only lane and anchor changed |
| Decimal.NumbersEqual | internal/agent/agent.go:952-991 | the comparing loop decides equality of order, sign and padded digits |
| Decimal.ParsePrinted | internal/agent/agent.go:993-1031 | reading any number text of the grammar keeps its rational value exactly and leaves no leading zero |
| Decimal.SameDecimalExact | internal/agent/agent.go:952-991 | normalised decimals compare equal if and only if their values are equal |
| Decimal.NumbersEqualExact | internal/agent/agent.go:952-1036 | two number texts are equal if and only if they denote the same rational, for unbounded digits and exponents |
| JsonValues.SameReflexive | internal/agent/agent.go:910-944 | equality of JSON values is reflexive |
| JsonValues.SameSymmetric | internal/agent/agent.go:910-944 | it is symmetric, objects included |
| JsonValues.SameTransitive | internal/agent/agent.go:910-944 | it is transitive |
| Schemas.CodexInPlace | internal/agent/codex.go:514-545 | the property-by-property rewrite computes the codex schema |
| Schemas.OptionalInPlace | internal/agent/agent.go:1108-1126 | the property-by-property widening computes the widened schema |
| Schemas.FillInPlace | internal/agent/codex.go:475-512 | the filling loops compute the filled answer and report a change exactly when there is one |
| Schemas.AllowNullExact | internal/agent/codex.go:559-577 | a widened schema accepts null and exactly what it accepted before, except that an empty type list, which accepted everything, then accepts null alone |
| Schemas.OptionalTwice | internal/agent/agent.go:1108-1126 | widening is idempotent |
| Schemas.OptionalAccepts | internal/agent/agent.go:1108-1126 | a value that conforms to a schema conforms to its widening if and only if it holds null wherever an optional property has an empty type list |
| Schemas.StrippedConforms | internal/agent/agent.go:1108-1126 | whatever conforms to the widening conforms to the schema once null optional fields are removed |
| Schemas.CodexAbsorbsOptional | internal/agent/codex.go:514-545 | widening a codex schema changes nothing |
| Schemas.WidenThenCodex | internal/agent/codex.go:514-577 | the other order agrees if and only if every optional object type already is closed |
| Schemas.OrderMatters | internal/agent/codex.go:520-524 | a schema whose optional object stays open if widened first, and an answer that shows it |
| Schemas.FillSuppliesOptionalOnly | internal/agent/codex.go:475-512 | filling adds exactly the absent optional properties, as null, and no required one |
| Schemas.CodexMeaning | internal/agent/codex.go:436-577 | for every schema whose enums hold scalars or values with every optional property present and not null: the filled answer conforms to the codex schema if and only if the answer conforms to the closed, widened schema less its requirements on undeclared properties |
| Schemas.ObjectEnumFails | internal/agent/codex.go:475-512 | with an object in an enum that lacks an optional property, the filled answer can be refused although the answer conforms |
| Schemas.CodexSeesDeclaredOnly | internal/agent/codex.go:514-545 | dropping requirements on undeclared properties first does not change the codex schema |
| Schemas.CodexKeepsMeaning | internal/agent/codex.go:436-577 | where object types require only declared properties, the filled answer conforms to the codex schema if and only if the answer conforms to the closed, widened schema |
| Schemas.UndeclaredRequirementIsLost | internal/agent/codex.go:525-533 | a required property that is not declared is no longer required after the rewrite |
| Schemas.PiStrictWeakens | internal/agent/pi_output.go:161-189 | the strict tool schema drops the unknown-field check and nothing else |
| Decoding.ScanBalanced | internal/agent/agent.go:1042-1074 | the scanner loop ends where its state machine first closes the object |
| Decoding.ScanPassesValue | internal/agent/agent.go:1042-1074 | over any decodable value inside an object the scanner returns to the depth it had |
| Decoding.ScanFindsObject | internal/agent/agent.go:1042-1074 | on any text that decodes to an object the scan ends exactly at its end, whatever its strings hold |
| Decoding.ScanIsLocal | internal/agent/agent.go:1042-1074 | surrounding text does not change where the scan ends |
| Decoding.DecodedIsGrammatical | internal/agent/agent.go:910-944 | every value the decoder yields holds numbers of the grammar only, so equality is an equivalence on all of them |
| Writing.WrittenDecodes | internal/agent/agent.go:910-944 | decoding is the inverse of writing: any value, with strings, numbers, words, arrays and nested objects written out and any whitespace between the tokens, decodes to itself |
| Writing.BlanksMayFollow | internal/agent/agent.go:910-944 | whitespace after a text does not change what it decodes to |
| Writing.BarredIsNotJson | internal/agent/agent.go:431-440 | a text in which a line end follows a backtick with no quote between decodes to nothing, so an answer in a fence never parses as a whole |
| Extraction.SkipFenceBlock | internal/agent/agent.go:617-644 | the line loop finds the marker that closes the block, and terminates |
| Extraction.FencedCandidates | internal/agent/agent.go:541-575 | the fence scan terminates and collects closed and open candidates, as FencedFrom says |
| Extraction.FencedArePart | internal/agent/agent.go:541-575 | every fenced candidate is one contiguous part of the text |
| Extraction.JsonFenceIsTaken | internal/agent/agent.go:541-575 | a closed block whose info word is json, in any case, yields exactly its body, and the scan goes on behind the opening fence |
| Extraction.OtherFenceIsSkipped | internal/agent/agent.go:541-575 | a closed block under any other info word yields nothing, and the scan goes on after it |
| Extraction.FencedAnswer | internal/agent/agent.go:431-515 | the fenced round trip: a conforming JSON value of any kind in one json block after prose comes back as that value |
| Extraction.BareObjects | internal/agent/agent.go:689-726 | the object scan terminates and returns disjoint spans in order with their verdicts |
| Extraction.FuseAdjacent | internal/agent/agent.go:838-860 | the first concluding run of adjacent objects decides |
| Extraction.MergeKeepsFields | internal/agent/agent.go:870-893 | a merged run keeps every field of every object |
| Extraction.MergeIsDisjoint | internal/agent/agent.go:870-893 | no two objects of a merged run share a top-level key |
| Extraction.MergeAddsNothing | internal/agent/agent.go:870-893 | every field of the union comes from one of the objects |
| Extraction.ParseStructured | internal/agent/agent.go:431-515 | the scanning loops together compute the specified answer or failure, which FencedCounts, NothingFencedCounts and EquivocalIsRefused spell out |
| Extraction.ParseIsSound | internal/agent/agent.go:431-515 | a returned answer conforms to the widened schema and is one span of the text or the union of adjacent objects |
| Extraction.ProseThenObject | internal/agent/agent.go:431-515 | any conforming object's text after prose without brace or fence comes back as that object |
| Extraction.AnswerIsOnlyOne | internal/agent/agent.go:431-515 | an answer is never picked from several: at most one closed and one open fence conforms, it is the answer, and bare objects agree with it unless the last one is asked for |
| Extraction.SplitAnswerIsFused | internal/agent/agent.go:838-893 | an answer whose fields came in two adjacent objects, neither one an answer, comes back as one object |
| Extraction.SeparatorExact | internal/agent/agent.go:861-868 | objects are adjacent if and only if whitespace and at most one comma stand between them |
| Extraction.ProseIsRefused | internal/agent/agent.go:431-515 | text without brace or fence that is no JSON is refused as prose |
| Answers.ResidueExact | internal/agent/agent.go:756-812 | what may follow a single bare answer: no brace, no fence, and no letter or digit outside a tag that whitespace does not cut |
| Answers.MergeExact | internal/agent/agent.go:870-893 | objects merge if and only if each of them is an object and no two share a top-level key |
| Answers.FuseRunExact | internal/agent/agent.go:838-893 | competing values for a key, or a span that is no object, end the search; disjoint objects are fused if the union conforms and reported as a split answer otherwise |
| Answers.FuseExact | internal/agent/agent.go:838-860 | only the objects at the end of the text can be fused: the longest run of adjacent ones, if only residue follows |
| Answers.SeveralObjects | internal/agent/agent.go:689-746 | of several conforming bare objects all count, and the last one is the last value |
| Answers.SingleObject | internal/agent/agent.go:689-746 | a single conforming object counts if and only if residue follows it; which error is left otherwise |
| Answers.NoGoodObject | internal/agent/agent.go:689-746 | without a conforming object the fused end of the text counts, or a split is reported, or the first object's error |
| Answers.EquivocalIsRefused | internal/agent/agent.go:431-515 | several conforming fences of a kind, or several bare objects where the last is not asked for, are refused as such |
| Answers.FencedCounts | internal/agent/agent.go:431-515 | otherwise a conforming fence - closed before open - is the answer if and only if the last bare object is absent or equal, else a conflict is reported |
| Answers.NothingFencedCounts | internal/agent/agent.go:431-515 | without one the last bare object is the answer, and without that the reason for none is exactly the first fence's error, else the bare objects', else prose, else the text's own |
| Answers.NestedFenceIsSkipped | internal/agent/agent.go:541-644 | a closed block under another info word is skipped whole, with all blocks nested in it, json ones included |
| Replay.EvidenceIsRight1 | internal/agent/opencode_failure.go:231-250 | on 1.x the evidence is right for every server behaviour the client cannot tell apart, if and only if the stream did not end cleanly without session.idle, tool part, answer or failed dial |
| Replay.EvidenceIsRight2 | internal/agent/opencode_run_v2.go:154-174 | on 2.x the evidence is right with no assumption |
| Replay.EvidenceExact1 | internal/agent/opencode_failure.go:231-250 | the 1.x evidence exactly, from tool parts on the stream or in the answer, a stream read to its end, and a request that never reached the server |
| Replay.SettledExact | internal/agent/opencode.go:260-283 | which message is evidence: the one that had come back when the stream failed, else the one waited for |
| Replay.EvidenceIsBest1 | internal/agent/opencode_failure.go:231-250 | the client never gives up where it could know: unknown evidence leaves a server that ran tools and one that did not, both looking the same, if and only if what was read has no session.idle and no tool part |
| Replay.EvidenceIsBest2 | internal/agent/opencode_run_v2.go:154-174 | on 2.x unknown evidence always leaves both |
| Replay.ReadEvents1 | internal/agent/opencode_stream.go:38-166 | the reading loop sees tool parts, session.idle and the first stopping error, and returns the error of the bytes only if nothing stopped it before |
| Replay.ReadEvents2 | internal/agent/opencode_stream_v2.go:51-131 | the 2.x reading loop sees tool frames and the first terminal frame; a stream that broke before one was read in whole is reported as dropped |
| Replay.MissedIdleIsRetried | internal/agent/opencode_stream.go:161-165 | a 1.x stream that ends cleanly before the tool part and session.idle can be retried after the tool ran |
| Replay.WithheldIsFinal | internal/agent/opencode_failure.go:104-132 | no classifier at any layer re-runs a withheld error |
| Replay.UnprovenIsWithheld | internal/agent/opencode.go:199-420 | every failed 1.x or 2.x turn whose tools are not proven idle returns a withheld error |
| Replay.SuccessExact1 | internal/agent/opencode.go:199-420 | a 1.x turn succeeds if and only if its request and stream did not fail and the message brings a structured answer, or no provider error and a text that parses |
| Replay.SuccessExact2 | internal/agent/opencode_run_v2.go:30-174 | a 2.x turn succeeds if and only if it was admitted, its stream ended as succeeded, and the message read back brings no provider error and a text that parses |
| Replay.PromptOnlyExact | internal/agent/opencode.go:152-197 | the prompt-only turn follows a native one if and only if that one failed for its schema request and is proven to have run no tools |
| Replay.RetryExact | internal/agent/retry.go:73-131 | an error is retried if and only if its first provider failure says so and ran no tools, or without one no marker speaks against it and its text reads as transient |
| Replay.FallbackExact | internal/agent/fallback.go:186-210 | the next agent takes over if and only if nothing in the error rejects the answer or leaves tools in doubt and it says refused or unavailable |
| Replay.ProvenIsRunAgain | internal/agent/opencode_failure.go:104-140 | failures whose tools are proven idle are retried or handed on where they say so, so withholding is no blanket refusal |
| Replay.Harness.RunOnce | internal/agent/opencode.go:152-197 | at most two prompts; the prompt-only one follows exactly a rejected schema request whose turn is proven to have run no tools |
| Replay.Harness.RunOpencode | internal/agent/retry.go:73-131 | at most eight prompts, each but the last proven to have run no tools; undisturbed it ends with exactly what the retry rule makes of the attempts |
| Replay.Harness.RunChain | internal/agent/fallback.go:99-167 | once an opencode session leaves its tools unproven, no layer submits another prompt; undisturbed the answer is exactly that of the first agent whose error forbids handing on |
| Replay.NoPromptAfterTools | internal/agent/fallback.go:186-210 | unless some 1.x stream ended unseen, no prompt ever follows an opencode turn that ran tools |
| Streaming.StreamState.EmitPart | internal/agent/opencode_stream.go:178-209 | a part emits what it has not emitted yet, only for a known assistant message |
| Streaming.FreshExact | internal/agent/opencode_stream.go:178-187 | what goes out completes what was emitted before to the text; a text that does not continue it goes out whole |
| Streaming.StreamState.OnTextPart | internal/agent/opencode_stream.go:83-108 | after an update every known assistant part is emitted in full and no user part is stored |
| Streaming.StreamState.OnUserMessage | internal/agent/opencode_stream.go:127-133 | exactly the message's parts are dropped and filtered, and nothing is emitted |
| Streaming.StreamState.OnAssistantMessage | internal/agent/opencode_stream.go:134-140 | a late role releases the buffered parts of its message in first-seen order |
| Streaming.StreamState.Handle | internal/agent/opencode_stream.go:33-166 | every 1.x event changes the stored parts and the text of the turn as specified and keeps the emission invariants; tool evidence is set by tool parts only |
| Streaming.Consume | internal/agent/opencode_stream.go:33-166 | the handler folded over a whole stream from the empty state, up to session.idle, text of the turn included |
| Streaming.StreamState.Append | internal/agent/opencode_stream_v2.go:177-192 | a 2.x delta extends its block and is emitted at once |
| Streaming.StreamState.End | internal/agent/opencode_stream_v2.go:195-212 | a closed 2.x block is emitted in full |
| Streaming.StreamState.Handle2 | internal/agent/opencode_stream_v2.go:51-131 | every 2.x event changes the stored parts and the text of the turn as specified and keeps the emission invariants |
| Streaming.Consume2 | internal/agent/opencode_stream_v2.go:51-131 | the 2.x handler folded over a whole stream from the empty state, up to its terminal frame, text of the turn included |
| Streaming.PutAddsUp | internal/agent/opencode_stream.go:178-196 | emitting the rest of a part keeps its chunks equal to its emitted text and those of all others unchanged |
| Streaming.ChunksAddUp | internal/agent/opencode_stream.go:178-227 | of an orderly stream, whatever its order, the chunks of every part of an announced assistant message add up to the text its events give it, and no chunk comes from a user's message |
| Streaming.ChunksAddUp2 | internal/agent/opencode_stream_v2.go:157-228 | of an orderly 2.x stream the chunks of every block add up to the text its events give it |
| Streaming.SaidIsAssistantText | internal/agent/opencode_stream.go:178-254 | the text of a 1.x turn is empty or a text some assistant part had at some point of the stream, never a user's and never blank |
| Streaming.LastPartIsSaid | internal/agent/opencode_stream.go:178-254 | whenever an event gives an assistant's part a text, that is the text of the turn, and its final text if the part is marked final |
| Streaming.LastBlockIsSaid | internal/agent/opencode_stream_v2.go:157-228 | after every event that gives a block text, the text of an orderly 2.x turn is that block's text so far |
| Capturing.CutAnywhere | cmd/recordfixture/opencode.go:218-244 | recording a stream in two pieces, wherever cut, equals recording it whole |
| Capturing.Capture.Write | cmd/recordfixture/opencode.go:218-244 | after every write buffer, pending bytes and idle flag are those of one reading of all bytes, which CaptureHolds spells out |
| Capturing.BufferIsEventsUpToIdle | cmd/recordfixture/opencode.go:218-276 | the buffer is, in order and each with its blank line, exactly the session's events up to and including the first idle one |
| Capturing.EventsRebuildStream | cmd/recordfixture/opencode.go:218-244 | the events with their blank lines and the unfinished rest are the stream, each cut at its first blank line |
| Capturing.OfSessionCounts | cmd/recordfixture/opencode.go:230-237 | an event is kept as often as it came if it is the session's, and never if it is not |
| Capturing.OfSessionInTwo | cmd/recordfixture/opencode.go:230-237 | what is kept of a stream is what is kept of its parts in turn, so order stays |
| Capturing.KeptIsOfSession | cmd/recordfixture/opencode.go:230-237 | an event of the session adds itself and a blank line, any other nothing |
| Capturing.CaptureHolds | cmd/recordfixture/opencode.go:218-276 | a capture, however its bytes arrived, holds the session's events of the stream it received, up to the first idle one |

## Left out

- `Apply` and the strict published-head move it makes for an already returned run; recovery of such a run ends as PublishedPath.
- The gate-context refusal, `RecoverAtHead`, immutable-source shipping, duplicate branch checkouts and the recording of a bound archive.
- Branches retired by a merged or closed PR, beyond refusing a rebind; a remote branch that no longer exists is only refused.
- Symbolic refs, refs to non-commit objects and unreadable refs; a configured gate always exists, and a failed read is a refused command.
- A read-only classification made of several git commands is one observation; every write and every guard right before a write is its own tick.
- Recovery.RecoverCustody: for runs without a verified head, what status offers and what the command answers are each stated exactly, but no agreement of the two, since status reads the recorded head and recovery the proved one.
- Recovery.RecoverCustody: the branch contents of a dropped working tree move into another checkout between the last branch check and the file switch are not excluded; the race is documented in the source.
- Recovery.RecoverCustody: a lane moved on the strength of a bound archive is stamped without another look at it, as in the source, so the read-back is promised for every other return.
- Replay.EvidenceIsRight1: whether a tool ran is read off what the server sends before session.idle (1.x) or the terminal frame (2.x), and a response is taken to list all parts of its turn; a server that runs a tool without ever saying so is outside the model.
- The sync mirror ref and the custody-return staging ref are scratch copies and do not count as keeping a commit.
- Line-level merging inside one file: a three-way merge decides each path as a whole, so two edits of one file conflict.
- `git merge-base` is a parameter that returns some common ancestor, the same one for the same pair.
- Error messages, next actions and telemetry; only the reason code of an outcome is kept.
- Schemas.FillInPlace: rewrites a value and returns it; sharing of one map between two places is not modelled, and numbers are not re-encoded.
- Schemas.CodexInPlace: property names are visited in any order and `required` is a set, since every reader treats it as one.
- Text is a sequence of characters instead of UTF-8 bytes; which characters are letters or digits is a parameter; the decoder has no nesting limit.
- Regular expressions, needle lists and the wording of errors are parameters of the replay model, as are deadlines and cancellations.
- Replay.Harness.RunChain: makes no claim about prompts of other adapters, session routing or an attempt seam owned by the caller.
- Token usage, its sums across attempts, HTTP, processes, timers and the splitting of server-sent frames.
- Which events belong to a session in the capture buffer is a parameter; locking and the idle channel are not modelled.
- Review roles and back-off durations, which would only add easy members.
