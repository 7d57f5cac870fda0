# Hyperdir, modelled and proved

Hyperdir keeps a directory tree in plain S3, where the only atomic act is a conditional
write to one object. This project models the protocols that make that work, and proves what
they promise over every run, every interleaving and a crash at any point. A process is always
a state machine whose steps are single S3 requests; the loops that change a table in memory
are methods of a class, proved against specification functions.

| part | modules |
|---|---|
| Scatter, compact, read, collect | `ScatterStore`, `ScatterProtocol`, `ScatterInvariant`, `ScatterTheorems`, `ScatterProgress`, `ScatterQueue`, `ScatterLimits`, `LastView`, `Compaction` |
| Open-addressed index | `Names`, `Index`, `DirIndexes`, `IndexRuns` |
| Cross-directory rename | `RenameProtocol`, `RenameTheorems` |
| Link counts | `LinkProtocol`, `LinkWeights`, `LinkInvariant`, `LinkTheorems`, `LinkProgress`, `LinkMarkers`, `NlinkUpdates` |
| The two together | `LinkSimulation`, `LinkFollows`, `JointRuns` |
| Byte-range locks | `Locks`, `LockMeaning`, `LockCodec`, `LockService` |
| Compactor lease | `Leases`, `LeaseCodec` |
| Keys and bodies | `Base64`, `ScatterKeys`, `DeleteBodies`, `Text`, `Words`, `Counting` |

## What the code relies on

Each of these is written as a guard on a step or a hypothesis of a theorem. Those in the first
list the code does not enforce; for each, lemmas give the exact condition and what goes wrong
outside it.

- A direct index edit (rename, link, remove) lands: nothing is pending over its name, or
  nothing that says otherwise (`EditShowsIff`). `TombstoneUndoesEdit` and
  `LinkOverTombstoneUndercounts` follow a link made over a kept tombstone: it stays unseen
  until the next compaction takes it out again, at the cost of the tombstone's child. For the
  counts the exact condition is `RefoldSafeIff`. The link protocol asks in addition that
  nothing unfolded is pending over an edited name.
- A later emission for a name ranks above every earlier one (`EmissionShowsIff`), and no
  `Unknown` op is emitted.
- A name's scatters are removed oldest first (`RemovalStuttersIff`, `NewestFirstRegresses`).
- No Create lands between folding a PreDelete and writing its tombstone
  (`TombstoneStuttersIff`).
- fs_gc finalises a tombstone with no older scatter of its name pending (`RemovalStuttersIff`;
  `GuardAloneResurrects` shows that the fold guard does not suffice).
- A folded delete marker names a child the fold takes out, and not one a rename is taking out,
  or its child has a link to spare (`FoldSafeIff`, `StaleMarkerUndercounts`,
  `SourceUnlinkedMidMove`).
- When a rename adds its destination, its source still counts for the child, or the destination
  has it already, or a link is to spare (`AddSafeIff`, `SourceUnlinkedBeforeAdd`).
- An update is announced under a name whose last value is its child, or a link is to spare
  (`UpdateSafeIff`, `LateUpdateUndercounts`). `StepIsSafeIff` says for all steps at once that
  these conditions are exact, and `AttentiveRunsAreSafe` that callers who look first meet them.
- For decrements to match removals child by child, each folded marker carries the uuid its name
  is bound to (`DebtsMatchIff`, `RecreatedChildIsCharged`).
- Recovery takes up only a recoverable rename intent; the code takes up any
  (`RecoveryIsSafeIff`, `MovedSourceDoubles`, `LiveClaimantDoubles`).
- A hard link bumps a file only while no collection is about to reclaim it, which a count
  above zero ensures (`BumpIsSafeIff`, `CountedIsNotCondemned`).
- Entry names are storable: at most 255 bytes, no NUL (`NameReadsBack`,
  `UpsertReadsBackIff`).

These are assumed outright:

- Flush is a compare-and-swap on the inode version with no effect on conflict, and a direct
  index edit commits as one reload-edit-flush.
- A raw Delete emitted outside phase 2 carries the uuid its name shows, or the name shows nothing.
- During a cross-directory rename its source is not re-bound, source and destination differ,
  and nobody else binds the child anywhere. That the child always has a name
  (`NeverUnreachable`) also assumes that nobody writes over a location naming it; the other
  rename results do not.
- An ETag identifies content. Lease holders share one clock that never runs backwards; the
  lock engine needs no such thing.

## Where the code and its comments disagree

The model follows the code.

- Both renames are documented to fail on an existing destination
  (src/fs.rs:866-869, src/fs.rs:886-890); both replace it.
- A leftover rename intent is called harmless (src/fs.rs:910-911). One claimed after the
  source was moved, or whose claimant then withdraws it, is not: recovering it can leave the
  child under two names.
- A removal is said to decrement its child exactly once (src/file.rs:109-112). When a name is
  unlinked, created anew and unlinked again before one compaction, the child that was in the
  index is never decremented or given a tombstone, and the new one, never in the index, is
  (`RecreatedChildIsCharged`).
- The interceptor writes the Create scatter before the child's inode
  (src/interceptor.rs:3-15), so a new name briefly has no inode behind it. The count of such a
  file is the 1 its scatter carries.

## Model

| member | source | states |
|---|---|---|
| `ScatterTheorems.StepKeeps` | src/file.rs:546-621 | all sixteen kinds of step keep the protocol's invariant: scatters not yet removed are the newest of what was ever emitted, the index holds what was folded last, a compactor whose version is current missed no removal, and readers can still account for every name |
| `ScatterTheorems.RunRefines` | src/file.rs:546-621 | stuttering refinement over every run: what a name shows is what an atomic map would hold, written only by emissions and by direct edits that land; flushes, removals, phase-2 tombstones, collections and crashes are invisible, with any number of compactors |
| `ScatterTheorems.StepRefines` | src/file.rs:598-615 | the same, one step at a time |
| `ScatterTheorems.ReadIsLinearizable` | src/file.rs:480-515 | every name in a finished read_dir or single-name resolve has the value it showed at some instant between that read's LIST and its index load, even when fetched bodies vanish under it |
| `ScatterTheorems.NothingResurrects` | src/fs.rs:573-679 | a name that shows something other than before was announced or edited in between, to just that value; no collection, wherever it stopped, brings a deleted child back |
| `ScatterTheorems.FastPathAgrees` | src/file.rs:385-421 | at rest, the single-name resolve, read_dir and the merged view agree on every name |
| `ScatterTheorems.RemovalStuttersIff` | src/s3.rs:91-137 | removing one scatter, in any order, is invisible exactly when it is superseded or what lies right beneath it has its effect |
| `ScatterTheorems.NewestFirstRegresses` | src/s3.rs:91-137 | removing a folded update before the create it replaced shows the old entry |
| `ScatterTheorems.GuardAloneResurrects` | src/fs.rs:605-625 | a late update under a phase-2 tombstone: the fold guard passes, and removing the tombstone shows the child |
| `ScatterTheorems.TombstoneStuttersIff` | src/fs.rs:829-851 | a phase-2 tombstone is invisible exactly when its name shows nothing as it lands |
| `ScatterTheorems.DroppedMeansRemoved` | src/file.rs:568-598 | a flush records exactly the names its commit takes from present to absent, with their children, and owes one decrement for each |
| `ScatterTheorems.DecrementsAreExactlyOnce` | src/fs.rs:802-860 | over every run, each decrement answers its own committed removal; while folded markers carry the removed uuid a child is never decremented more often than removed, and exactly as often when no work is lost |
| `ScatterLimits.DebtsMatchIff` | src/file.rs:568-595 | every decrement a flush owes goes to the child it removed if and only if every removed name's marker carries that child's uuid |
| `ScatterLimits.RecreatedChildIsCharged` | src/file.rs:590-594 | a run from rest, each marker naming the child its name then showed, that ends with the removed child never decremented and a child never in the index decremented |
| `ScatterLimits.EditShowsIff` | src/file.rs:434-468 | a direct edit shows exactly when nothing is pending over the name or the latest pending scatter says the same; otherwise the name shows what it did |
| `ScatterLimits.TombstoneUndoesEdit` | src/fs.rs:322-346 | from every state with a kept tombstone, a link or rename onto its name commits unseen, and the next compaction takes it out and owes a decrement to the tombstone's child |
| `ScatterLimits.EmissionShowsIff` | src/s3.rs:147-205 | a scatter shows as it lands exactly when none pending outranks it or the latest says the same |
| `ScatterTheorems.FlushFoldsForward` | src/file.rs:546-621 | a flush never folds an older scatter over a newer one, and folding one again changes nothing: a name's changes enter the index in the order of emission, each at most once |
| `ScatterProgress.CompactionCompletes` | src/fs.rs:791-860 | from every reachable state with something pending, a compaction left alone runs to its end: the index is the merged view, of what was pending exactly the latest Deletes are left, readers see no change, each name taken out has the child its marker names decremented once, with a tombstone written in place of a PreDelete |
| `ScatterProgress.ReadCompletes` | src/file.rs:480-515 | a read_dir or single-name resolve left alone ends, and answers every name in its scope with the merged view |
| `ScatterProgress.SweepCompletes` | src/fs.rs:605-679 | a collection left alone removes a tombstone with nothing older under it and its child out of the index, even when the name is bound to another child |
| `ScatterProgress.GetDecides` | src/file.rs:626-682 | the GET of a listed scatter decides its name for the pass: an object still there counts with its effect, one that has gone since leaves the name to the index |
| `ScatterProgress.LeadsIsRun` | src/file.rs:546-621 | such a pass extends any run that reaches its first state |
| `ScatterQueue.StepMovesQueue` | src/file.rs:546-621 | every step of the scatter protocol moves an index entry, a queue of unfolded changes and a kept tombstone: emissions append, flushes consume from the front with the last change deciding the entry and a tombstone consumed last kept, collections take a tombstone away, folded or not, direct edits replace the entry under an empty queue or consume a queue that says the same, all else is not felt |
| `ScatterQueue.QueueShows` | src/file.rs:480-515 | what readers see is the end of that queue, or the index entry when it is empty |
| `ScatterQueue.FlushOwes` | src/file.rs:568-595 | a decrement owed for a name goes to the child named by the change the flush consumed last |
| `LinkFollows.StepMirrors` | src/file.rs:546-621 | when the scatter protocol takes a step and the link protocol takes just the steps that one is (the create, update or unlink of an emission; one fold for each name a flush consumes from, in any order; the collection of a tombstone; the burial of a phase-2 tombstone; the payment of a decrement; the link or rename of an edit; nothing for the rest), a directory alike in both is alike again: entries, queues, kept tombstones and debts |
| `LinkFollows.StepIsFollowed` | src/file.rs:546-621 | from views alike the link protocol can always take those steps, given a fresh child for a create, its inode for a tombstone, and a link or rename for an edit |
| `JointRuns.ReadersNeverOutnumberLinks` | src/fs.rs:802-860 | in every run of a directory's emitters, compactors, readers and collectors, followed by the link protocol while links, renames and collections go on everywhere, every name readers of the directory see for a file is one of its names, and those do not outnumber its nlink plus its renames between add and remove |
| `JointRuns.ReadersSeeNothingReclaimed` | src/fs.rs:641-664 | in every such run no reader of the directory sees a reclaimed child, but under a source a rename is about to remove |
| `JointRuns.JointRunsGoOn` | src/file.rs:546-621 | no step of the scatter protocol is left out of such runs, if the link protocol allows its emission, burial or edit |
| `LinkFollows.FlushMirrors` | src/file.rs:562-598 | a flush of any number of names is one fold for each name it consumes from and nothing else, and leaves a debt for each name it takes out, to the child its marker names |
| `LinkSimulation.MirrorsShow` | src/file.rs:480-515 | readers of a mirrored name see the same child in both |
| `ScatterInvariant.FlushStutters` | src/file.rs:598-599 | a successful flush after reload-then-list changes no name's merged value |
| `ScatterInvariant.RemovedStutters` | src/file.rs:600-610 | removing a settled scatter, the oldest of its name with its effect already beneath, changes no name's merged value |
| `LastView.FilterLastView` | src/lib.rs:352-390 | grouping and popping yields, for each listed name, one scatter, and none of that name has a later S3 time, or at that time a higher ULID, or with both equal a later key; with distinct keys exactly the last ones |
| `LastView.NoLaterIff` | src/lib.rs:371-377 | one scatter does not come before another exactly when S3 time, then ULID, then key say so, spelled out |
| `LastView.KeyLessIff` | src/lib.rs:371-377 | keys compare byte by byte: the smaller ends where the other goes on, or has the smaller byte where they first part |
| `LastView.LastIsUnique` | src/lib.rs:371-377 | the order has one maximum per name |
| `LastView.OrderDoesNotMatter` | src/lib.rs:352-390 | the result does not depend on the order of the listing |
| `LastView.RestrictionCommutes` | src/s3.rs:52-56 | listing one name's folder gives the same latest scatter as listing them all |
| `LastView.LastIsHighestRank` | src/lib.rs:371-377 | with distinct ULIDs the last scatter is the one of highest rank, which is how the protocol orders them |
| `Compaction.Classify` | src/file.rs:626-682 | one pass over the latest scatters gives the batch the listing amounts to, each name classified once, and sets aside exactly the Deletes no other scatter of their name outranks; everything else listed may be removed |
| `Compaction.BatchDescribes` | src/file.rs:630-679 | the batch holds exactly the fetched creates and updates, the deletes, and the fetched predeletes, by name |
| `Compaction.OverlayIsOverlaid` | src/file.rs:562-595 | the imperative fold and the protocol's flush compute the same index |
| `Compaction.RemovalsAreDebts` | src/file.rs:568-595 | the names the fold reports removed are those the protocol owes a decrement for, with the same child |
| `Index.LookupIsView` | src/file.rs:770-789 | probing answers as the plain map the table stands for, for every hash |
| `Index.UpsertIsUpdate` | src/file.rs:794-812 | an upsert keeps every probe chain filled and changes the plain map at that name alone |
| `Index.UpsertFailsWhenFull` | src/file.rs:794-812 | an upsert fails exactly when the name is absent and every slot from its home to the last 64-bit one is taken |
| `Index.DeleteIsRemoval` | src/file.rs:817-845 | backward-shift deletion restores every chain and removes exactly that name, up to the last slot and over placeholders |
| `Index.ShiftRepairs` | src/file.rs:817-845 | closing a hole by shifting entries back restores every chain, from any intermediate table |
| `Index.PlacementIsUnique` | src/file.rs:770-845 | a table stands for one plain map only |
| `DirIndexes.DirIndex.ProbeLookup` | src/file.rs:770-789 | the loop finds the name's slot exactly when the map has the name |
| `DirIndexes.DirIndex.ProbeUpsert` | src/file.rs:794-812 | the loop computes the upsert; an exhausted chain reports failure and changes nothing |
| `DirIndexes.DirIndex.ProbeDelete` | src/file.rs:817-845 | the in-place shift removes exactly the name and says whether it was there |
| `DirIndexes.DirIndex.RenameWithin` | src/file.rs:860-884 | the entry moves to the new name with its own inode and uuid, replacing what was there and touching nothing else; every error case leaves what it says, and the exhausted one means that every slot from the new home on is taken |
| `DirIndexes.DirIndex.WalkBmap` | src/file.rs:718-753 | the walk yields every live entry once, in slot order, placeholders left out |
| `DirIndexes.DirIndex.MergedView` | src/file.rs:488-515 | read_dir's merge is the batch laid over the plain map |
| `DirIndexes.DirIndex.Fold` | src/file.rs:562-595 | whatever order the batch is iterated in, the map becomes the old one overlaid by the batch, and the names reported are those that were there; it fails only over a new name with every slot from its home on taken |
| `IndexRuns.RunAnswersAsMap` | src/file.rs:770-845 | from the empty table, through any upserts and deletes, lookups answer as a plain map of names to the inodes and uuids put there |
| `IndexRuns.PutIsFound` | src/file.rs:794-812 | after any run, what an upsert puts under a name is found there with just that inode and uuid, and every other lookup answers as before |
| `IndexRuns.HashDoesNotMatter` | src/file.rs:152-163 | two hash functions, however they collide, give the same answers: the inode and uuid last put under the name |
| `IndexRuns.UpsertReadsBackIff` | src/ondisk.rs:61-80 | what is written under a name is found under it exactly when the name is storable |
| `Names.NameReadsBack` | src/ondisk.rs:61-132 | an entry carries the inode and uuid it was made for, and answers to the name it was made for exactly when the name is at most 255 bytes, has no NUL and is not 255 times 0xFF |
| `Names.StoredNameIs` | src/ondisk.rs:61-132 | whatever the name, its entry stores the part before its first NUL, cut to 255 bytes, or looks like the placeholder exactly for 255 leading bytes 0xFF |
| `RenameProtocol.StepKeeps` | src/fs.rs:1331-1432 | every step of renames, recoverers, crashes and unrelated edits keeps the rename invariant: at most one intent is past its recheck, every destination that received the child is its destination, and whoever is about to release finds the source gone |
| `RenameTheorems.MoveOnce` | src/fs.rs:1331-1432 | over a whole run, any number of renames of one source put the child under at most one destination |
| `RenameTheorems.NeverUnreachable` | src/fs.rs:1421-1432 | while nobody writes over a location naming it, the child has a name in every state, and exactly one whenever no intent is left; together with `RenameGoesThrough` and `RecoveryGoesThrough`, which reach such states |
| `RenameTheorems.OneNameAtRest` | src/fs.rs:1331-1432 | whatever others do to the destinations, at most one location names the child whenever no intent is left |
| `RenameTheorems.SourceIsRemoved` | src/fs.rs:1429-1432 | in every run, removing the source removes it, and an intent is deleted over a bound source only by a rename withdrawing its claim |
| `RenameTheorems.RenameGoesThrough` | src/fs.rs:892-914 | whenever the key is free and the source bound, a rename left alone ends with the child at the destination, the source and the intent gone, and every other name as it was |
| `RenameTheorems.RecoveryGoesThrough` | src/fs.rs:1009-1036 | from every reachable state with a recoverable intent, a recoverer left alone ends the same way |
| `RenameTheorems.CrashedRenameRecovers` | src/fs.rs:1009-1036 | wherever a rename crashes between its claim and the removal of its source, a recoverer finishes it |
| `RenameTheorems.LeftoverMeansCrash` | src/fs.rs:1371-1399 | in every run, an intent whose claimant is no longer at work was left by a crash of that claimant |
| `RenameTheorems.GivesUpAfterEight` | src/fs.rs:1350-1412 | in every run, a rename whose claim meets another goes back to read its source, and gives up exactly at the eighth time, with nothing written |
| `RenameTheorems.AbsentSourceEnds` | src/fs.rs:1351-1357 | in every run, reading the source ends the rename exactly when the source is gone |
| `RenameTheorems.OneWinner` | src/fs.rs:1371-1399 | at most one rename call ever gets past its recheck |
| `RenameTheorems.OthersUntouched` | src/fs.rs:1421-1432 | the protocol's own steps rebind nothing but the source and that one destination |
| `RenameTheorems.RecoveryIsSafeIff` | src/fs.rs:1009-1033 | taking up an intent can never double the child if and only if it is past its recheck, or its claimant is gone with the source still bound, or it points where the child already is |
| `RenameTheorems.MovedSourceDoubles` | src/fs.rs:1380-1393 | recovering an intent claimed after the source moved gives a second name |
| `RenameTheorems.LiveClaimantDoubles` | src/fs.rs:1380-1399 | recovering an intent its claimant then withdraws over a read error lets a second rename land too |
| `LinkInvariant.StepIsSafeIff` | src/fs.rs:273-347 | from every well-counted state, any step of create, update, unlink, link, both renames, compaction, collection and crash leaves every name, bump under way and unpaid decrement counted if and only if it meets its condition, read off before the step |
| `LinkInvariant.FoldSafeIff` | src/file.rs:573-595 | folding a marker keeps everything counted if and only if the name was unbound, or the marker names a child the name goes through before it and no rename is taking out, or its child has a link to spare |
| `LinkInvariant.RefoldSafeIff` | src/file.rs:573-580 | folding a kept tombstone again keeps everything counted if and only if nothing was put over it, or just its own child, or that child has a link to spare |
| `LinkInvariant.UpdateSafeIff` | src/interceptor.rs:65-102 | announcing an update keeps everything counted if and only if its name has the child last, or is being left by a rename of it, or the child has a link to spare |
| `LinkInvariant.AddSafeIff` | src/fs.rs:1421-1432 | adding a rename's destination keeps everything counted if and only if the destination has the child or is being left, or the source still counts for it, or the child has a link to spare |
| `LinkInvariant.StepKeeps` | src/fs.rs:273-347 | every safe step keeps the invariant that no count is too low and no collection is about to take a counted file |
| `LinkTheorems.NeverUndercounts` | src/fs.rs:802-860 | over every run neither the names readers see nor those in the index outnumber nlink plus the cross-directory renames between adding their destination and removing their source |
| `LinkTheorems.GcNeverTakesANamedFile` | src/fs.rs:641-664 | a reclaimed child has no name then or ever after, not even a pending one, but for sources a rename under way is about to remove |
| `LinkTheorems.LinkConservation` | src/fs.rs:322-346 | over every run nlink is its initial value plus creates, committed links, leaked bumps and bumps under way, less decrements |
| `LinkTheorems.LinksAtRest` | src/fs.rs:322-346 | at rest, a file only linked and with every rollback succeeding counts its initial value plus its committed links |
| `LinkTheorems.OneCommitPerName` | src/file.rs:451-460 | of any number of links to one name at most one commits, unless the name is taken out in between |
| `LinkProgress.LinkCompletes` | src/fs.rs:322-346 | a link of a file that is there to a free name, left alone, binds the name, raises the count by one and changes nothing else; readers see it unless a tombstone of the name is kept |
| `LinkProgress.RefusedLinkUndoes` | src/fs.rs:328-333 | a link that finds its name taken takes its bump back |
| `LinkProgress.LinkBeganFree` | src/fs.rs:273-322 | in every run, a link under way began on a name that was free |
| `LinkProgress.RollsBackAfterFive` | src/fs.rs:325-346 | in every run, a link whose insert loses to another flush tries again, and rolls back exactly at the fifth time |
| `LinkProgress.UnlinkCompletes` | src/fs.rs:802-860 | an unlink, its fold, phase 2, payment and collection leave the name out of the index, nothing to fold, collect or pay, and the count one lower; a last link ends with the file reclaimed |
| `LinkProgress.CollectionCompletes` | src/fs.rs:641-664 | a buried file that counts no link, or whose inode is gone, can be reclaimed |
| `LinkProgress.RenameCompletes` | src/fs.rs:1421-1432 | a cross-directory rename moves the binding and nothing else |
| `LinkTheorems.BumpIsSafeIff` | src/fs.rs:641-664 | bumping a file to link it under a free name can leave the name dangling if and only if a collection is between reading zero and reclaiming |
| `LinkTheorems.CountedIsNotCondemned` | src/fs.rs:648-654 | a file that counts a link is never about to be reclaimed |
| `LinkMarkers.AttentiveRunsAreSafe` | src/fs.rs:216-262 | in every run whose callers look first (markers name the child last shown, updates the child shown, edits spare kept tombstones, renames find their source) every step is safe and so all counts hold, re-creation between compactions included |
| `LinkMarkers.LateUpdateUndercounts` | src/interceptor.rs:65-102 | an update announced after the unlink, both folded and the unlink paid, leaves the name bound with a count of zero |
| `LinkMarkers.StaleMarkerUndercounts` | src/fs.rs:816-860 | a stale marker, folded and paid, leaves a named file with a count of zero |
| `LinkMarkers.SourceUnlinkedMidMove` | src/fs.rs:1421-1432 | a source unlinked, folded and paid between the two halves of a rename leaves the destination named with a count of zero |
| `LinkMarkers.SourceUnlinkedBeforeAdd` | src/fs.rs:1380-1432 | so does one unlinked, folded and paid between the recheck and the add |
| `LinkMarkers.LinkOverTombstoneUndercounts` | src/file.rs:451-460 | a link made over a kept tombstone, taken out by the next compaction and paid, leaves the tombstone's child named elsewhere with a count of zero |
| `NlinkUpdates.AdjustsAreAtomic` | src/fs.rs:1479-1503 | over every run of concurrent optimistic updates, the count is what the committed deltas give added one after the other, each stopping at zero, and each caller is told the count it made |
| `NlinkUpdates.UnsaturatedAddsUp` | src/fs.rs:1486-1498 | adjustments that never reach below zero add up, in whatever order they commit |
| `NlinkUpdates.AdjustCompletes` | src/fs.rs:1486-1498 | a caller left alone adds its delta, stopping at zero, and is told the count |
| `NlinkUpdates.GivesUpAfterFive` | src/fs.rs:1486-1502 | in every run, a caller that loses its flush goes on, and gives up exactly at the fifth time, the count unchanged |
| `LinkTheorems.StepBalances` | src/fs.rs:1479-1503 | each step changes nlink by what it is accounted for |
| `Locks.LockTable.PurgeExpired` | src/lock.rs:107-109 | keeps exactly the unexpired entries, in order |
| `Locks.LockTable.Test` | src/lock.rs:113-124 | tells the start, end, mode and pid of the first entry that is live, of another owner, overlapping and, one of the two writing, incompatible; nothing exactly when there is none |
| `Locks.LockTable.RemoveRange` | src/lock.rs:127-144 | cuts the range out of the owner's entries; no bound computed by a split wraps |
| `Locks.LockTable.Set` | src/lock.rs:150-164 | refuses with the start, end, mode and pid of the first such entry, or carves and appends; an unlock is never refused, and a refusal still purges |
| `Locks.LockTable.ReleaseOwner` | src/lock.rs:168-172 | drops the owner's entries, and the length tells whether there were any |
| `Locks.LockTable.Renew` | src/lock.rs:176-185 | sets the expiry of the owner's entries, live or expired, and nothing else |
| `Locks.EntryByEntry` | src/lock.rs:107-172 | purging, carving and releasing work entry by entry and keep the entries in order, the left part of a split before the right |
| `LockMeaning.SetKeepsExclusion` | src/lock.rs:150-164 | no two owners' entries, expired ones included, ever overlap incompatibly, for every range and clock |
| `LockMeaning.RenewKeepsExclusion` | src/lock.rs:176-185 | reviving an expired entry is harmless |
| `LockMeaning.SetMeaning` | src/lock.rs:113-164 | byte by byte, the caller's range takes the new mode or none, and every other holding is the old unexpired one |
| `LockMeaning.SetFailsIff` | src/lock.rs:113-164 | a set fails exactly when a live entry of another owner shares a byte incompatibly |
| `LockMeaning.SetKeepsDisjointIff` | src/lock.rs:127-164 | one owner's ranges stay disjoint if and only if the range is not reversed by two or more inside one of the owner's live entries |
| `LockMeaning.DisjointIsByByte` | src/lock.rs:127-144 | disjoint means that no byte is covered by two entries of one owner |
| `LockMeaning.ReleaseMeaning` | src/lock.rs:168-172 | byte by byte, exactly the owner's holdings go |
| `LockMeaning.RenewMeaning` | src/lock.rs:176-185 | byte by byte, exactly the owner's expiries change |
| `LockCodec.Encode` | src/lock.rs:189-198 | writes the header and one record per entry |
| `LockCodec.Decode` | src/lock.rs:203-224 | reads the records, skipping lines that do not parse |
| `LockCodec.RoundTripIff` | src/lock.rs:189-224 | a table survives encoding and decoding exactly when no owner holds a tab or a newline |
| `LockCodec.BodyText` | src/lock.rs:189-198 | a body is the line v1 and then one line per entry, in order |
| `LockCodec.RecordText` | src/lock.rs:192-196 | a record is owner, R or W, start, end, pid and expiry, between tabs |
| `LockCodec.RecordHasFiveTabs` | src/lock.rs:208-211 | only a line of exactly six fields is a record |
| `LockService.PersistedIsSequential` | src/lock.rs:235-352 | every persisted table is what the committed calls give one after the other, each legal where it stands, although equal content repeats its ETag; what a call answers without writing is true of the table it loaded. What a committed call means is `LockCallHolds` and the rows after it |
| `LockService.NoLostUpdates` | src/lock.rs:256-272 | once a put changes the object, every later table of the run replays its operation, right after those committed before it |
| `LockService.LockCallHolds` | src/lock.rs:289-311 | in every run, a lock call that puts over the table it loaded leaves the table alone if a live entry of another owner shares its range and one of the two writes; otherwise each byte of its range is held in its mode, with its pid, until now plus its ttl (where the sum is within i64; `ExpiryIsAhead` says what is recorded outside) |
| `LockService.UnlockCallFrees` | src/lock.rs:289-311 | in every run, such an unlock call leaves its owner no byte of the range |
| `LockService.ReleaseCallFrees` | src/lock.rs:314-331 | in every run, such a release takes exactly its owner's holdings away |
| `LockService.RenewCallExtends` | src/lock.rs:334-352 | in every run, such a renewal makes all its owner holds, and nothing else, expire at now plus its ttl |
| `LockService.CallCompletes` | src/lock.rs:289-352 | from every state a call left alone loads the current table, puts over it and is done |
| `LockService.GivesUpAfterEight` | src/lock.rs:294-310 | in every run, a call whose put loses goes on, and gives up exactly at the eighth time, the table unchanged |
| `LockService.AlwaysExclusive` | src/lock.rs:289-352 | in every state of every run, whatever clocks were sampled, no two owners conflict |
| `LockService.BytesPersist` | src/lock.rs:289-352 | a byte no longer held was let go by its owner's unlock or release, or by a set whose clock had reached its expiry |
| `LockService.OrderedRunsStayDisjoint` | src/lock.rs:127-164 | with ends in order, entries stay proper and one owner's stay disjoint, through any operations |
| `LeaseCodec.LeaseRoundTripIff` | src/lib.rs:183-205 | a lease body reads back exactly when the holder has no newline and no final carriage return |
| `LeaseCodec.ParseLeaseBody` | src/lib.rs:187-205 | a body gives a lease exactly when its last line starting holder= and its last line starting expires_at_unix_ms= say so |
| `LeaseCodec.ParsedIsLastLines` | src/lib.rs:187-205 | the same of the parsed body, line by line |
| `Leases.OneLeader` | src/s3.rs:218-385 | in every state of every run at most one unreleased guard is unexpired, and the lease object is its own; how long that lasts is `LeaseLasts` |
| `Leases.NeverDisplaced` | src/s3.rs:260-385 | a lease that has not run out, its holder alive or crashed, leaves the object only by its own holder's release |
| `Leases.TakeOverReplacesExpired` | src/s3.rs:299-385 | in every run, what a takeover replaces is a lease that had run out when the taker sampled its clock; what it writes is in `LeaseLasts` and `TakeOverSucceedsIff` |
| `Leases.LeaseLasts` | src/s3.rs:218-258 | in every run, a guard that began at some time with some ttl, adding up within i64, has a lease that expires at their sum, and is the leader exactly until then |
| `Leases.OthersFail` | src/s3.rs:299-385 | in every run, whatever another process tries while there is a leader does not make it a guard and leaves the lease object alone |
| `Leases.ReleaseFrees` | src/s3.rs:260-289 | in every run, the leader's release takes its lease object away |
| `Leases.AcquireSucceeds` | src/s3.rs:218-258 | with no lease in the way, an acquisition left alone writes one that expires at now plus the ttl |
| `Leases.TakeOverSucceedsIff` | src/s3.rs:299-385 | with a lease in the way, it succeeds, with an expiry of now plus the ttl, if and only if that lease has run out |
| `Leases.CrashedLeaseRunsOut` | src/s3.rs:299-385 | once a crashed holder's lease has run out, the next to come takes it |
| `Words.ExpiryIsAhead` | src/s3.rs:222-222 | the saturating expiry is not before now exactly when the ttl fits i64 (or now is the minimum); it is exact short of saturating, i64::MAX beyond, and for a ttl above i64::MAX that ttl less 2^64 |
| `Base64.RoundTrip` | src/lib.rs:341-346 | every byte string reads back through the custom unpadded alphabet (section 4 of RFC 4648 for the grouping, section 3.2 for the omitted padding), and a string decodes only to the bytes that encode to it |
| `Base64.SextetsKeepBits` | src/lib.rs:341-346 | each 24 bits of the name are the next four characters' values in order, missing bits zero |
| `Base64.Alphabet` | src/lib.rs:307-311 | the values stand for the 64 characters of the custom alphabet, in its order |
| `Base64.EncodeIsSafe` | src/lib.rs:339-346 | the encoding holds no `/`, `_`, `!` or `.`, and only the empty name encodes to nothing |
| `ScatterKeys.KeyRoundTripIff` | src/lib.rs:287-337 | a scatter key reads back exactly when its name is not empty and its directory path has no `!` |
| `ScatterKeys.KeyText` | src/lib.rs:321-337 | a key is the directory, `!`, the encoded name, then ULID, uuid and op number between underscores, with the suffix of its op |
| `ScatterKeys.PrefixListsOneName` | src/s3.rs:52-56 | listing one name's prefix finds that name's keys and no others |
| `DeleteBodies.PreDeleteReadsBack` | src/lib.rs:99-116 | flag and retention deadline survive, whatever follows them |
| `DeleteBodies.TombstoneReadsBack` | src/lib.rs:120-157 | both times and the inode survive |
| `DeleteBodies.PreDeleteLayout` | src/lib.rs:99-116 | the body is the flag byte and the deadline in eight little-endian bytes; cut short, it reads as no flag or no retention |
| `DeleteBodies.TombstoneLayout` | src/lib.rs:120-157 | the body is two times of eight little-endian bytes each and then the inode; anything shorter than the header is refused |
| `Text.DecimalIsPlaceValue` | src/lock.rs:192-196 | numbers are written in decimal, highest power of ten first, without leading zeros |

## Left out

- hyperfile and btree-ondisk: the B-tree is a map from slots to entries with ordered seek, a flush a versioned compare-and-swap; segments, nodes and the last-writer-wins retry are not modelled.
- S3 pagination, transport errors that say nothing about the outcome, sleeps and logging; any other failure is a process that stops.
- Batched DeleteObjects: removal is one object at a time, in the order the hypotheses ask for; the chunking and the error flag are not modelled.
- CRC64, ULID and UUID generation and their text forms: an arbitrary hash, and opaque tokens.
- UTF-8: names are byte strings, owners and holders character strings; the checks for valid UTF-8 are not modelled.
- LastView.PopLast: finds the last element of a group by a scan; the source sorts the group and pops.
- Retention times in fs_gc: a tombstone may be collected at any time, which covers every clock.
- Directories as children in the link protocol: their debts carry no decrement in the source; the model treats every child as a file.
- An Update scatter emitted by a stale handle after the name was unlinked: excluded by hypothesis; the source would show the name again.
- Appliers of a rename that re-add its destination after its source was removed: the link protocol ends a rename with that removal; repeated adds before it are modelled.
- Collection of raw Deletes of a child whose inode was never written: the link protocol collects children that phase 2 has buried.
- fs_rmdir's emptiness test, fs_gc_orphans, fs_reclaim and reclaim intents, the rename intent's text form.
- Extended attributes, stat, chmod, chown, open and create wrappers, layout strings: plumbing that would only add easy members.
