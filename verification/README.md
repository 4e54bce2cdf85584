# A verified model of nject

nject takes an ordered list of providers, decides which of them to keep, orders them, gives every type
they deal in a position in one array of values, and compiles the list into nested closures.  This
project states in Dafny what each of these steps is to achieve and proves that the algorithms achieve
it, on all inputs.  `dafny verify dfyconfig.toml` checks everything.

Types are integers (`Basics`), values are integers, and a provider's function is arbitrary: what it
returns, and how often and with what a wrapper calls `inner`, may depend on everything that has happened
so far in the run.

**Inclusion** (`FlowGraph.dfy`, `Elimination.dfy`, `EliminationCases.dfy`, `Links.dfy`, `Preferences.dfy`,
`Include.dfy`). `FlowGraph` says what a self-consistent set of providers is and defines the greatest one
among some candidates, without any algorithm. The flows of providers that reordering has given up are ignored
at first, and count again at the end. `Elimination` says, of the chain alone, who is proposed for elimination
and what remains (`Remainder`), and proves what that means for who remains. `LinkTables` describes the tables
the solver fills in and shows what looking into them decides, `Preferences` what they come to in terms of the
chain. `Include.Includer` is the solver: the passes that fill the tables, the worklists, the trials, and the
loop of eliminations; what it leaves is the `Remainder`.

**Reordering** (`Topology.dfy`, `ReorderLaws.dfy`, `ReorderOrder.dfy`, `TopoSort.dfy`, `ReorderGraph.dfy`,
`ReorderResult.dfy`). `Topology` specifies one step of the scheduler with its two heaps and its fallback
queue, `ReorderLaws` and `ReorderOrder` prove what holds at the end of every run, `TopoSort.Topo` is the code and refines
the specification, and `ReorderGraph` and `ReorderResult` build the graph and turn the laws into
statements about providers and types: who is given up, and whether the static phase stays in front.

**Compilation** (`Interp.dfy`, `RunLaws.dfy`, `Reads.dfy`, `Generate.dfy`, `Slots.dfy`, `Closures.dfy`, `Bind.dfy`,
`DoBind.dfy`, `Supply.dfy`, `Flatten.dfy`, `Direct.dfy`, `DirectAgrees.dfy`, `DirectDiffers.dfy`,
`DirectExactly.dfy`, `OutOfOrder.dfy`). `Interp` runs a chain directly, with one map from types to
values going down and another coming up. It has two modes: `Ideal`, what a wrapper's caller should see,
and `AsCoded`, what it does see. `RunLaws` says what one provider does in terms of what its function
returns. `Reads` says when everything a run reads has been set before.
`Closures` runs the compiled closures on the one array, changed in place, and proves every closure equal
to the interpreter; `Slots` allocates the positions; `Binding` and `Binder` put the pieces together and
describe any history of init and invoke calls; `Supply` connects all that with what inclusion
guarantees, for lists in any order; `Flatten` is the division into static and run phase.  `Direct` reads the
list as its author would, each entry binding at its own place what it sends; `DirectAgrees` shows when
the code does that, and `DirectDiffers` and `DirectExactly` that it does not do so otherwise.

**Replacement** (`Splice.dfy`, `SpliceLaws.dfy`, `SpliceResult.dfy`, `SpliceOrder.dfy`,
`SpliceInput.dfy`, `SpliceTail.dfy`, `SpliceSuccess.dfy`, `CutTwice.dfy`, `Linking.dfy`, `Replace.dfy`).
The directives as operations on sequences, what a whole traversal does to the chain as it was given,
when it succeeds, and the surgery on the doubly linked list that refines the operations.

**The rest**: `Curry.dfy`, `Cache.dfy`, `Shadowing.dfy` and `ShadowingList.dfy`, `Match.dfy`.

Where the code and its documentation or evident purpose differ, the model follows the code:

- doc.go says that a type comes from the closest provider, and inclusion chooses that one.  But all literals
  are written before anything runs, then the inputs of the init function, then what static injectors return,
  and each overwrites the one before, wherever they stand; a run provider that reordering has moved in front
  of the invoke function gets that function's inputs all the same (`OutOfOrder`;
  `DirectExactly.DirectExactlyIf`, `Direct.ClosestExactlyIf` and `Direct.RunClosestExactlyIf` say exactly
  when the closest provider wins).
- For values that come up inclusion prefers the farthest supplier, not the closest
  (`Elimination.ClosestRemains`).
- The documentation of Reorder says that pass-through providers of one type keep their original order; they
  do if they take and send the same types (`ReorderResult.AlikeKeepOrder`), but not if the first also takes what
  only the second sends (`ReorderResult.PassThroughsSwapped`).
- doc.go says that the static set is invoked again each time the init function is; it runs once
  (`Binding.StaticChainRunsOnce`, `Binding.FirstInitDecides`).
- doc.go says that a wrapper may call `inner` zero or more times.  After a second call in sequence what
  the wrapper returns is written to a copy and lost (`Interp.CodeMeetsIdeal`,
  `Interp.SecondCallLosesReturns`).
- An error that only fallible injectors return is read although it has not been set when none of them
  fails (`Supply.ErrorOnlyOnFailure`); so is what is returned only below a second call
  (`Supply.NothingIsReadUnsetExactlyIf`).
- The error that ends the static chain is zeroed again if a later entry before the invoke function's
  place sends an error as well, even an excluded one (`Supply.FailureIsReported`, `Supply.FailureIsLost`).
- doc.go says that the TerminalError need not be the last return value.  If it is not, a memoised
  fallible injector corrupts its own remembered result when it is used for the first time
  (`Cache.ReusableExactlyIfLast`).
- Reordering follows a nil map if a returned type's consumption is optional (`ReorderGraph.BuildGraph`),
  and removing mutual weak edges deletes from the wrong sets, so that the earlier of two providers loses
  its wish (`ReorderGraph.RemoveMutual`).
- A provider marked Reorder that waits for nothing, such as a literal, is never released, although nothing
  stands in its way (`ReorderLaws.ReleasedExactlyIfMet`, `ReorderResult.LiteralGivenUp`).  Inclusion then
  ignores its flows at first: what needs it is rejected (`FlowGraph.SupplierMissed`), and if it is required
  and lacks something itself that is noticed only as an internal error (`FlowGraph.NoticedTooLate`).
- A run provider marked Reorder may get in front of the invoke function, where it can leave the init
  function without a result that inclusion has counted on (`Supply.StarvedByMovedProvider`), or in front of
  literals of the static phase (`ReorderResult.LiteralOvertaken`), even before the place where the invoke
  function stood.  There it counts as static when positions are given out: the init function then returns a
  zero value without complaint (`Supply.InitReturnsUnset`), and the error of a fallible injector has no
  position, so that a failure writes to position -1 (`Supply.NoRoomForError`).
- Shadowing is checked on the whole list, so that a chain is rejected because of providers that are not in
  it (`ShadowingList.AcceptedExactlyIf`, `ShadowingList.RejectedInVain`).
- Providers that replace the same name and stand on both sides of what they replace are lost
  (`SpliceResult.TornApart`, `SpliceInput.TornOnlyIfSandwiched`), and inserting behind the last provider may
  follow a nil pointer (`SpliceResult.NilPointerFollowed`, `SpliceTail.CrashedOnlyBehindTheEnd`).
- The comment on `bestMatch` says that the lowest type code wins; the highest does
  (`Match.HighestCodeWins`).

## Model

| member | source | states |
|---|---|---|
| `FlowGraph.ConsistentExactlyIf` | include.go:268-340 | Type by type: a set is self-consistent exactly if every input of a member (and every result of the init function) is sent by a member before it (before the invoke function), everything received is returned by a member behind it, and everything that must be consumed is taken or received by a member; Unused need not be consumed, and providers given up take and supply nothing. |
| `FlowGraph.GreatestIsGreatest` | include.go:239-345 | The providers that can all be kept together form one set: the union of all self-consistent subsets of the candidates is self-consistent and contains every one of them. |
| `FlowGraph.ValidExactlyIf` | include.go:221-237 | Candidates are valid exactly if one self-consistent set of them holds all required providers, and all desired and wanted candidates unless these may go. |
| `FlowGraph.InvalidityIsInherited` | include.go:142-192 | A provider that could not be dropped from a larger set of candidates cannot be dropped from a smaller one either, as long as nobody desired or wanted was taken away in between; this is why one greedy round is enough. |
| `FlowGraph.ValidWithoutGivenUp` | include.go:347-391 | Among candidates none of whom reordering has given up, ignoring the flows of those given up or not makes no difference to what is included or valid. |
| `FlowGraph.NoticedTooLate` | include.go:200-216 | A concrete chain whose required provider has been given up and lacks an input: valid at the first validation, which has no flows for it, and invalid at the last ("uh oh #2"). |
| `FlowGraph.SupplierMissed` | include.go:359-362 | A concrete chain that is rejected because a supplier has been given up, and would be valid otherwise. |
| `LinkTables.ChecksOutIsConsistent` | include.go:268-340 | Looking a provider up in the recorded tables (sources of every input, consumers of every type that must be consumed, unmatched types) decides exactly whether it is consistent with the providers still included. |
| `LinkTables.UsedByIsComplete` | include.go:442-453 | The re-check lists are complete: whenever taking a provider out makes another one inconsistent, that one is on its usedBy list. |
| `LinkTables.UsedByIsMutual` | include.go:442-453 | With a must-consume obligation in force the link is visible from both ends. |
| `LinkTables.ProtectedStay` | include.go:458-479 | Required, desired, wanted and clustered providers survive the elimination of unused ones. |
| `LinkTables.KeptAreProtected` | include.go:458-479 | A provider that reordering has given up survives the elimination only if it is required, desired, wanted or clustered: the tables have no user for it. |
| `Preferences.LargestIsBound` | include.go:458-479 | What the first cut leaves depends on the chain alone: the greatest part of the greatest consistent set in which everybody is required, desired, automatically desired, clustered, or taken from by, or obliged to take from, somebody in it. |
| `Preferences.LeastIsNeeded` | include.go:493-538 | What one direction of the walk over the tables keeps is the least set of the chain that holds those who must stay and, with every member, the last supplier left of each type it takes. |
| `Elimination.NeededIsLeast` | include.go:493-538 | That set holds everybody who must stay and the last supplier of each type a member takes, and is part of every other such set. |
| `Elimination.ClosestRemains` | include.go:518-535 | Of several providers that could supply a type to a needed one, that which stands last (going down the closest, coming up the farthest) is needed, is not proposed and remains, unless it is shunned or in a cluster; and no other that remains stands behind it. |
| `Elimination.DesiredRemains` | include.go:503-507 | A required or desired provider that can be kept, unclustered and not shunned, remains, and is where both walks start. |
| `Elimination.QuietInjectorRemains` | include.go:88-112 | So does an injector whose outputs, if any, are all Unused, although nobody takes anything from it. |
| `Elimination.UnusedGoes` | include.go:458-479 | Any other provider that is neither required nor desired nor clustered does not remain if nobody that can be kept takes anything from it or insists on being taken from. |
| `Elimination.Indispensable` | include.go:142-192 | If nobody who could go with a proposal is desired or automatically desired, no provider proposed that has remained, and no cluster, could be left out of what remains. |
| `Elimination.PlainIndispensable` | include.go:142-192 | In chains without clusters it is enough that nobody shunned is desired or automatically desired: then every provider that remains and is shunned, or outside both least sets, is indispensable. |
| `Elimination.ShunnedGo` | include.go:539-544 | Shunned providers are tried first: if the chain is valid without all of them (unclustered, none desired or automatically desired), none remains. |
| `Elimination.ClusterRemainsWhole` | include.go:114-137 | The members of a cluster that can be kept at all remain together or not at all. |
| `Elimination.LoneQuietInjectorRemains` | include.go:143-148 | A cluster of one automatically desired injector always remains. |
| `EliminationCases.CloserSupplierRemains` | include.go:518-535 | A concrete chain with two injectors of one type: the closer one remains and the other is excluded. |
| `EliminationCases.ClusterGoes` | include.go:179-192 | A concrete chain from which a cluster of two goes as a whole. |
| `EliminationCases.ShunnedIsAvoided` | include.go:539-544 | The first chain with the closer injector shunned: the other one remains. |
| `EliminationCases.ShunnedGoesThoughDesired` | include.go:143-148 | A concrete chain whose only injector is desired, shunned and alone in its cluster: it is excluded, which one that is automatically desired would not be. |
| `Include.Includer.ProvidesReturns` | include.go:347-391 | One walk down and one back up record exactly the edges "j supplies type t to flow f of i" between the providers not marked, and exactly the types nobody supplies, with the suppliers of each type listed so that, whoever is ruled out, the last (for received types the first) of the others is the one that stands last in the chain; they fail only if on the way some type is listed without anybody who sends it. |
| `LinkTables.NeverListedEmpty` | include.go:435-437 | No map that holds what has been passed so far lists a type without a sender, so neither walk ever fails. |
| `Include.Includer.ProvideParameters` | include.go:393-414 | After a provider has been added the map lists, per type, exactly the senders passed so far, in the order in which they were passed. |
| `Include.Includer.RequireType` | include.go:416-456 | One required type gets all its suppliers recorded on both sides, or is recorded as unmet; it fails exactly if the type is listed without anybody who sends it. |
| `Include.Includer.CheckProvider` | include.go:268-340 | The verdict on one provider is exactly its consistency with the set of providers still included. |
| `Include.Includer.CheckFlows` | include.go:239-345 | The worklist ends, whatever order the lists are in; it succeeds exactly if the greatest consistent subset of the candidates keeps every required provider (and every desired or wanted one unless these may go), and then that subset is what is included. |
| `Include.Includer.ValidateChain` | include.go:221-237 | Validation succeeds exactly if the set of providers not excluded is valid, and marks its greatest consistent subset as included. |
| `Include.Includer.EliminateUnused` | include.go:458-479 | Ends, and leaves the largest part in which everybody unprotected is used by somebody; what stays is still consistent. |
| `Include.Includer.TryWithout` | include.go:142-175 | A trial excludes the given providers exactly if the chain stays valid without them, and restores every mark otherwise. |
| `Include.Includer.ProposeEliminations` | include.go:481-555 | After the first cut the proposal is the shunned providers in order, then in order everybody outside the two least sets that hold the required, the desired and the unclustered automatically desired providers and, with every member, the last of those left that can supply each type it takes (going down for one set, coming up for the other). |
| `Include.Includer.TryProposal` | include.go:179-192 | One round: a provider not in a cluster goes exactly if the chain stays valid without it, the first member of a cluster takes the whole cluster along, other members do nothing, and a cluster of one that is automatically desired is never tried. |
| `Include.Includer.TryProposals` | include.go:179-192 | The elimination loop keeps the chain valid throughout and leaves exactly what trying the proposals one after the other comes to. |
| `Include.Includer.ComputeDependenciesAndInclusion` | include.go:68-219 | Whatever marks reordering has left: the chain is rejected exactly if it is invalid as a whole, seen without the flows of those given up; otherwise what has not been excluded is exactly Elimination.Remainder of the chain, so that in chains without clusters, with nobody shunned desired or automatically desired, nobody that is shunned or outside the two least sets could be left out of it; neither call of the two walks fails, so "uh oh" never occurs; "uh oh #2" exactly if what is left is invalid once the flows of those given up count again, and never if none of them is required, desired, automatically desired or clustered; otherwise what is included is the greatest consistent part of what was not excluded, it keeps everybody who may not go, and whoever has been given up stays only if protected. |
| `Topology.LeastIsUnique` | intheap.go:29-40 | No two nodes have the same heap priority, so what is popped does not depend on the layout of the heap. |
| `Topology.ReleaseOneMore` | reorder.go:290-310 | Releasing the nodes a set of nodes holds back, one after the other in any order, adds up to one effect; the order in which the maps are walked does not matter. |
| `Topology.StepProgresses` | reorder.go:321-369 | Every turn of the scheduler leaves fewer nodes undone, or as many and fewer waiting: topo.run ends. |
| `TopoSort.Topo.Release` | reorder.go:290-310 | The imperative step has exactly the effect of the specification's release, branch by branch. |
| `TopoSort.Topo.ReleaseNode` | reorder.go:312-319 | Both loops over the sets, in whatever order, have the effect of releasing all nodes at once. |
| `TopoSort.Topo.ProcessOne` | reorder.go:348-369 | Processing a node changes done, output, heaps and relations as specified, and never reads the provider list at its own length although the test is > rather than >=. |
| `TopoSort.Topo.Run` | reorder.go:321-346 | The whole run gives the specified order, and marks exactly the providers never reached. |
| `ReorderLaws.ResultIsPermutation` | reorder.go:258-267 | Every provider comes out exactly once, so the count-changed error cannot occur. |
| `ReorderLaws.FixedKeepOrder` | reorder.go:134-149 | The providers not marked Reorder come out in exactly their original relative order, those forced out through the fallback queue included. |
| `ReorderLaws.StrongOrder` | reorder.go:290-319 | A released provider comes after every provider it is strongly after, and for every type node it waits for after a released provider of that type, unless the type was free from the start. |
| `ReorderLaws.ReleasedExactlyIfMet` | reorder.go:321-346 | A provider marked Reorder is released, and otherwise given up, exactly if it waits for something and everything it waits for is released; one that waits for nothing is always given up. |
| `ReorderLaws.TypeReleasedExactlyIfSupplied` | reorder.go:237-246 | A type is released exactly if the init function has it or a released provider supplies it. |
| `ReorderOrder.OriginalOrder` | intheap.go:29-40 | Of two providers marked Reorder the earlier one comes out first if it waits for the same and has no more wishes, or waits for less and has none. |
| `ReorderOrder.WishesAreMet` | reorder.go:321-346 | A provider marked Reorder comes after one it wishes to come after if nodes lead there that all get released and wait for nothing but each other and what it waits for itself: what is blocked only weakly is taken last. |
| `ReorderGraph.RemoveMutual` | reorder.go:223-232 | Of two providers that each wish to come after the other, the wish that was recorded first is dropped, and nothing else is, although the deletions name the wrong sets. |
| `ReorderGraph.BuildGraph` | reorder.go:80-232 | The graph has exactly the strong edges the rules call for, and the weak ones less, of two mutual wishes, that of the earlier provider; building it follows a nil map exactly if some provider's consumption of a returned type is optional. |
| `ReorderGraph.Reorder` | reorder.go:58-269 | Without a Reorder mark nothing changes; otherwise the result is the scheduler's order on the graph built, of full length. |
| `ReorderGraph.SuppliersComeFirst` | reorder.go:150-195 | Every provider emitted as released comes after a released supplier of each input type somebody can supply (or the init function has it), and, if it returns a type whose consumption is not optional, after a released receiver. |
| `ReorderResult.ReleasedExactlyIfSupplied` | reorder.go:134-195 | In terms of the list: a provider marked Reorder is released exactly if some rule makes it wait for something, the last static provider (if it must wait for that) is released, and each available type it takes, less optional ones, has a released supplier or comes from the init function. |
| `ReorderResult.AlikeKeepOrder` | reorder.go:12-15 | Two providers marked Reorder that take and send the same types in both directions come out in their original order. |
| `ReorderResult.SuppliersAwaited` | reorder.go:176-216 | A released provider comes after one that sends a type it takes, or receives one it returns, without taking or returning it itself, on the same condition, unless that one has such a wish in turn and stands behind it. |
| `ReorderResult.PassThroughsSwapped` | reorder.go:12-15 | A concrete list: two pass-through providers of one type, of which the first also takes a type only the second sends, come out in the other order. |
| `ReorderResult.LiteralGivenUp` | reorder.go:134-141 | A concrete list: a literal marked Reorder waits for nothing and is given up, and with it what needs its type. |
| `ReorderResult.StaticPhaseStaysInFront` | reorder.go:134-149 | Whatever follows the last provider of the static group: if nobody marked Reorder stands before that provider, everything up to it stays in front and in order. |
| `ReorderResult.LiteralOvertaken` | reorder.go:134-149 | A concrete list whose static phase ends with a literal: a run provider marked Reorder gets in front of it. |
| `Interp.CodeMeetsIdeal` | generate.go:200-249 | What is seen upstream of a wrapper is what it should be, for all values, exactly if the wrapper made at most one inner call or is marked Parallel (whose returns are lost as documented). |
| `Interp.SingleCallsAreIdeal` | generate.go:200-249 | A whole chain whose wrappers not marked Parallel call inner at most once runs exactly as the direct interpreter says: closest earlier provider down, closest later returner up. |
| `Interp.SecondCallLosesReturns` | generate.go:222-226 | A concrete chain in which the error returned by a wrapper that calls inner twice never reaches its caller. |
| `RunLaws.SentByIndex` | generate.go:290 | What an injector sends is its results in order, without the one at the position of its TerminalError. |
| `RunLaws.InjectorPasses` | generate.go:269-316 | An injector is called with what has been set and zero values for the rest; if its TerminalError, if any, is nil, the rest of the chain runs on what was there with each of its output types set to the result for the last output of that type. |
| `RunLaws.InjectorFails` | generate.go:277-286 | If the TerminalError is not nil nobody further down is called, and that error comes up with zero values for exactly the types to be zeroed. |
| `RunLaws.FinalReturns` | generate.go:173-176 | What comes up from the final function is its results, by type, and nothing else. |
| `RunLaws.WrapperCallsOnce` | generate.go:200-249 | A wrapper that calls inner once: the rest runs with the arguments of that call set over what was there, the wrapper receives what comes up, and upstream sees that with its own results set over it, or these alone if it is marked Parallel. |
| `RunLaws.WrapperCallsNever` | generate.go:238-247 | A wrapper that does not call inner: upstream sees its results over zero values for the types to be zeroed. |
| `RunLaws.StaticSends` | generate.go:319-382 | A static provider sets all its results; if its error is not nil the static chain is over and the types to be zeroed are zero, otherwise the rest runs. |
| `Reads.ReadsSetExactlyIf` | generate.go:200-249 | In every run of a chain that finds its inputs, wrappers, inner calls and failures included, no provider reads an input that has not been set, and everything wrappers and the caller receive has been set: exactly if every received type is safe.  A type is not safe if below its receiver a Parallel wrapper, a second call or a failure can leave it unset. |
| `Reads.UnsafeIsRead` | generate.go:200-249 | For a type that is not safe there is a run that gets to the receiver and comes back to it without the type. |
| `Reads.SafeExactlyIfReturned` | generate.go:238-247 | With no Parallel wrapper and no second call a type is safe exactly if a wrapper or the final function returns it from there on, and everybody before that who may skip it zeroes it: zeroing is what fills in for inner calls and providers that do not take place. |
| `Generate.GenerateParameterMap` | generate.go:27-69 | Fails exactly for a type that is no real type or has no entry; otherwise maps each parameter to the position of its type. |
| `Generate.WritingIsBinding` | generate.go:99-114 | Writing a parameter list into the value collection is binding it in the interpreter's map of that direction, the last of equal types winning, and is not seen in the other direction. |
| `Generate.ReadingIsGetting` | generate.go:72-96 | Reading a parameter list from the value collection is reading the interpreter's map, unset positions giving zero values. |
| `Slots.AddToVmap` | bind.go:425-435 | Exactly the types of the flow that had no position get a fresh one; nobody else moves. |
| `Slots.AllocateSlots` | bind.go:140-178 | Positions are distinct and in range, none serves both directions; a type has one going down exactly if the static phase sends it or the run phase takes it, and coming up exactly if the run phase returns it; what must be zeroed after each provider is exactly what may not have been set. |
| `Closures.MakeZero` | generate.go:116-145 | Exactly the positions of the given types are to be zeroed. |
| `Closures.GenerateWrappers` | generate.go:156-317 | The closures capture the maps that belong to the provider's flows, for every class, and zero exactly the positions of the types that may not have been set. |
| `Closures.RunEndpoint` | generate.go:173-176 | The final function gets its inputs from, and returns into, the maps of the interpreter. |
| `Closures.RunInjector` | generate.go:269-316 | An injector sends down its results in order less the TerminalError, and fails exactly if that is not nil; one that fails sends up the error, exactly the types it has to zero as zero values, and nothing else. |
| `Closures.RunBatch` | bind.go:262-290 | A batch of consecutive injectors run in a loop does what running them one inside the other would, and ends the chain at the first failure. |
| `Closures.CallInner` | generate.go:211-231 | One inner call runs the rest of the chain on what the wrapper was given plus only that call's arguments. |
| `Closures.RunWrapper` | generate.go:200-249 | Every inner call, first or later, sequential or parallel, starts from the wrapper's entry state whatever earlier calls did to the array; what is seen afterwards is the first sequential call's results with the returns over them, only if there was at most one. |
| `Closures.Exec` | bind.go:249-297 | Running the nested closures on the one array makes the same calls with the same arguments in the same order as the interpreter, and leaves in the array what the interpreter sends up. |
| `Closures.RunStatic` | generate.go:319-382 | A static injector writes its results; a failing one then has its remainder's types zeroed. |
| `Closures.RunStaticChain` | bind.go:310-323 | The static chain on the base values is the interpreter's, failures included. |
| `Binding.Nest` | bind.go:249-297 | The loop from the last to the first provider builds the nesting for the whole run chain. |
| `Binding.Bound.Init` | bind.go:345-376 | The init function: inputs bound and static chain run on the first call only, results read from the base values. |
| `Binding.Bound.Invoke` | bind.go:378-408 | The invoke function: static chain once if there is no init function, then the run chain on a copy of the base values; results and trace are the interpreter's. |
| `Binding.StaticChainRunsOnce` | bind.go:329-343 | Over any sequence of init and invoke calls the static chain runs at most once. |
| `Binding.StaticChainSettles` | bind.go:299-343 | Once the static chain has run, no sequence of calls changes the base values. |
| `Binding.FirstInitDecides` | bind.go:345-361 | Only the inputs of the first init call count, wherever it comes in the history. |
| `DirectAgrees.HistoryIsDirect` | bind.go:299-408 | The whole list, static phase included, read in its own order: each entry binds at its own place what it sends, and takes what has been bound closest before it; after a failure of the static phase later entries of it bind zero values. Every sequence of init and invoke calls that starts with init, if there is one, returns and does exactly that, if everybody gets what it takes from the closest entry and wrappers not marked Parallel call inner at most once. |
| `DirectExactly.DirectExactlyIf` | bind.go:299-408 | That is so for all values of the literals, all functions and all histories exactly if everybody gets what it takes from the closest entry: every static provider, the init function, and every run provider, no matter who fails, and no run provider stands behind the final function. |
| `Direct.ClosestExactlyIf` | bind.go:299-323 | For an entry of the static phase the closest entry that sends a type is the one whose value is there exactly if it is a static injector; or the init function, and no static injector before sends the type; or a literal, the last of all that send the type, and neither init nor a static injector before does. |
| `Direct.RunClosestExactlyIf` | bind.go:299-408 | For an entry of the run phase: exactly if it is a run provider; or the invoke function, and no run provider before sends the type; or neither of them does before, and what is closest is what the whole static phase leaves for the type. |
| `OutOfOrder.LaterLiteralIsTaken` | bind.go:299-308 | A concrete list [literal X = 1, injector X to Y, literal X = 2, invoke, final], consistent and separated: the injector is called with 2, the literal that stands after it. |
| `OutOfOrder.EarlierInjectorStays` | bind.go:299-323 | A concrete list [injector of X, injector X to Y, literal X = 5, invoke, final]: the literal is closest to the final function, and the injector is where its X comes from. |
| `OutOfOrder.InjectorIsLeft` | bind.go:299-323 | In that list, with injectors that return 7, X is 7 once the static chain is over. |
| `OutOfOrder.LiteralOverwritten` | bind.go:345-353 | A concrete list in which an input of the init function overwrites a literal that stands closer. |
| `OutOfOrder.MovedGetsInvokeInputs` | bind.go:378-408 | A concrete list in which a run provider moved in front of the invoke function gets the input of the invoke function that stands behind it. |
| `Binding.HistoryIsIdeal` | doc.go:213-248 | As far as the run phase is concerned: if wrappers not marked Parallel call inner at most once, every sequence of init and invoke calls returns and does what the direct interpreter of the run chain says. (The static phase is the coded one on both sides; see Direct.) |
| `Binder.WriteLiterals` | bind.go:299-308 | Before anything has run the base values hold the included literals, the last of each type winning, wherever it stands. |
| `Binder.DoBind` | bind.go:129-410 | In whatever order reordering has left the entries of both phases, the invoke and the final function: if there is a place for what comes up, binding fails exactly for an init function that returns a type no entry before invokeIndex sends; otherwise the bound functions satisfy the above for the plan made of the included providers, starting from the literals. |
| `Binder.RunsAreAChain` | bind.go:234-247 | The included providers of the run phase, wherever among the others they, the invoke and the final function stand, form a chain with exactly one final function, at its end. |
| `Supply.ChoiceCanBeBound` | include.go:347-456 | For a self-consistent choice of providers, reordered in any way, there is a place for everything that is sent down; all that slot allocation and the closures rely on is there exactly if every type that comes up is returned by somebody behind invokeIndex; the init function is starved exactly if some result of it is sent only behind invokeIndex. |
| `Supply.SeparatedHasRoom` | bind.go:169-178 | If nobody has been moved past invokeIndex, there is a place for what comes up as well. |
| `Supply.NoRoomForError` | bind.go:169-178 | A concrete consistent list whose fallible injector has been moved in front of a literal, before invokeIndex: there is no place for its error. |
| `Supply.BindChosen` | bind.go:118-410 | Binding a self-consistent set of providers, with a place for what comes up, fails in that case only, and otherwise gives the plan for exactly these providers. |
| `Supply.StarvedByMovedProvider` | bind.go:159-168 | A concrete chain of four that inclusion accepts and binding rejects, since a run provider stands in front of the invoke function. |
| `Supply.StaticsReadSet` | bind.go:154-159 | Whatever the order: if every static provider finds its inputs among literals, the inputs of init and earlier static providers, the static chain never reads what has not been set; and when it is over, failed or not, every type is set that is to be there then. |
| `Supply.NothingIsReadUnsetExactlyIf` | bind.go:129-178 | Whatever the order of the list: in every run, of the static chain and of the run chain, nothing is read that has not been set, by providers going down, by wrappers and the invoke function going up, exactly if every provider finds its inputs among what is sent to it in the order of execution, and the types received are safe. |
| `Supply.ConsistentIsSupplied` | include.go:239-345 | For a self-consistent choice of which nobody has been moved past invokeIndex the first half holds, and a type is there after the static chain exactly if an included entry before invokeIndex sends it. |
| `Supply.SafeInPlainChains` | bind.go:169-178 | For the plan binding makes of a list in any order, with no included wrapper marked Parallel and none calling inner twice, a type is safe exactly if a wrapper or the final function returns it further down and everybody before that who may skip it zeroes it: those behind invokeIndex with somebody behind them in the list that returns it. |
| `Supply.ErrorOnlyOnFailure` | bind.go:169-178 | A concrete chain in which an error that only a fallible injector returns is read unset by the caller when nothing fails. |
| `Supply.BaseSetExactlyIf` | bind.go:154-168 | A type is set after the static chain in every run, failing ones included, exactly if a literal or the init function sends it, or a static provider does and every fallible one up to which nobody has sent it zeroes the type when it fails. |
| `Supply.InitReturnsUnset` | bind.go:154-168 | A concrete consistent list in which a run provider stands before invokeIndex, so that binding finds a position for the result of the init function, which is never set. |
| `Supply.FailureIsReported` | bind.go:154-158 | The error that ends the static chain can still be read afterwards, with the plan binding makes, exactly if no later entry before invokeIndex, included or not, sends an error. |
| `Supply.FailureIsLost` | bind.go:154-158 | A concrete static phase whose error is overwritten by the zeroing for an excluded provider. |
| `Flatten.CharacterizeAndFlatten` | nject.go:248-284 | The two lists are the providers of the two phases in their original order, each characterized for the context it is found in. |
| `Flatten.StaticTakesStatic` | nject.go:256-275 | No provider of the static phase takes a type of the invoke function or of an earlier provider of the run phase. |
| `Flatten.TakenAsStaticExactlyIf` | nject.go:256-284 | A provider is taken as static exactly if it can be, and none of its inputs comes from the invoke function or an earlier provider not taken as static. |
| `Flatten.StaticSuppliersStayExactlyIf` | nject.go:256-284 | Once the static phase has been moved to the front and is bound, a static provider gets an input from where the original order says (the closest before it, else the init function) always if that is a static injector; if it is a literal, exactly if that is the last of all and neither a static injector before nor the init function sends the type; if there is none, exactly if the init function sends it or no literal at all does. |
| `Flatten.RunSuppliersStayExactlyIf` | nject.go:256-284 | A run provider gets an input from where the original order says (the closest before it, else the invoke function, else the init function) always if that is a run provider; if it is of the static phase, exactly if no run provider before nor the invoke function sends the type and no static injector after it does, and for a literal also no static injector at all, nor the init function, nor a later literal; if there is none before, exactly if the invoke function sends it, or no static injector does and the init function does or no literal. |
| `Flatten.InPhases` | bind.go:39-57 | The list handed to reordering and, unless that moves anybody, to slot allocation is made of the entries these rely on, and invokeIndex separates its two phases. |
| `SpliceResult.InsertedAtTarget` | replace.go:219-240 | After an insert directive the block stands directly before the first, or directly behind the last, provider of the name, and what is left without the block is what was left before. |
| `SpliceResult.ReplacedInPlace` | replace.go:191-218 | After a replace directive the block stands where the providers it names stood, all of them are gone, and what is left without the two is what was left before. |
| `SpliceResult.TornApart` | replace.go:191-218 | A concrete chain of three for which replacing leaves nothing at all. |
| `SpliceResult.NilPointerFollowed` | replace.go:117-118 | A concrete chain of two for which inserting behind the last provider follows a nil pointer. |
| `SpliceResult.ChainAfterwards` | replace.go:51-252 | The result has every provider at most once, those without directives in their original relative order, and misses only providers whose name has been replaced. |
| `SpliceResult.ExactlyTheReplacedAreMissing` | replace.go:51-252 | If no provider to be replaced has a directive of its own, exactly those are missing whose name some directive replaces. |
| `SpliceInput.TornOnlyIfSandwiched` | replace.go:191-218 | A block is lost only if, in the chain as given, a provider of the name stands directly between two that are to replace it (names to be replaced belonging to providers without directives). |
| `SpliceTail.CrashedOnlyBehindTheEnd` | replace.go:117-118 | A nil pointer is followed only if some directive of the chain as given inserts behind its last provider. |
| `SpliceSuccess.SucceedsExactlyIfResolvable` | replace.go:51-252 | If no provider that is referred to has a directive, the whole rearrangement succeeds, without error, nil pointer or lost block, exactly if every name referred to is there in one place, all that replace a name stand together, insertions at it come before them, and nothing is to be inserted behind the last provider. |
| `SpliceSuccess.UnambiguousExactlyIf` | replace.go:120-148 | A name can be referred to exactly if some provider has it, and nobody without it stands between two that have. |
| `SpliceSuccess.EverybodyInPlace` | replace.go:12-44 | Then exactly the replaced providers are missing, those without directives are in their original order, and among them every provider with a directive stands where the one it refers to stood, on the side it asked for. |
| `SpliceResult.TraverseKeeps` | replace.go:161-243 | Every turn of the traversal keeps the order of undirected providers, keeps same-named neighbours together, and leaves every directive dealt with in effect. |
| `SpliceLaws.StepIsOk` | replace.go:161-189 | Each turn deals with a directive not dealt with before or moves one node closer to the tail: the traversal ends, each directive is applied at most once, and no node is skipped. |
| `Linking.SnipUnlinks` | replace.go:168-177 | Two pointer changes cut a stretch out of the doubly linked list; list and stretch stay linked in both directions, and the tail gets to know its predecessor if the stretch was the last. |
| `Linking.InsertLinks` | replace.go:178-184 | Four pointer changes link a stretch in before a node, keeping next and prev inverse. |
| `ReplaceByName.Editor.Snip` | replace.go:168-177 | Cuts exactly the contiguous block that starts at the node, marking its members. |
| `ReplaceByName.Editor.InsertBlock` | replace.go:219-240 | The pointer surgery of an insert directive is moving the block in the sequence. |
| `ReplaceByName.Editor.ReplaceBlock` | replace.go:191-218 | The pointer surgery of a replace directive, adjacent blocks included, is exchanging the blocks in the sequence, unless the block is lost; then the list is intact without it. |
| `ReplaceByName.Editor.BuildIndex` | replace.go:120-148 | The index gives each name its first block, and tells whether it occurs elsewhere. |
| `ReplaceByName.Editor.Traverse` | replace.go:161-243 | The loop over the linked list is the traversal of the specification, turn by turn. |
| `ReplaceByName.HandleReplaceByName` | replace.go:51-252 | A collection without directives stays as it is, a provider with two directives is an error, and otherwise the outcome is that of the specification. |
| `Curry.Curry` | utils.go:67-106 | Succeeds exactly if the outputs are equal, there are fewer inputs, every type of the curried function occurs as often in the original, every other type at most once, and the first injected input is no function; then the k-th parameter of a type feeds the k-th parameter of that type. |
| `Curry.NoGaps` | utils.go:67-106 | The two maps have disjoint ranges that together cover every parameter of the original function exactly once, with its type. |
| `Curry.OrderIsKept` | utils.go:84-104 | Parameters of one type of the curried function feed those of the original in order. |
| `Curry.CurriedFunction.Call` | utils.go:108-120 | The rebuilt call sets every argument of the original function, and there is only one way to do so. |
| `Cache.FillKeyFromInputs` | cache.go:183-198 | The array holds the inputs' keys padded with the empty string. |
| `Cache.KeysTellApart` | cache.go:183-198 | Two argument lists of a function share a key that can be found again exactly if they hold no NaN and are equal but for invalid values, nil interfaces and empty strings, which are all taken for the same. |
| `Cache.HitsReturnTheFirst` | cache.go:200-269 | Of a function of at most 90 inputs: in any history a call whose inputs pass the check and are alike those of an earlier call that passed it returns the values of the first such call, calls nothing and changes nothing. |
| `Cache.RunsOncePerKey` | cache.go:200-269 | In any history inputs that pass the check, of a function of at most 90 and without a NaN, are remembered, no two calls whose inputs pass it are alike, nothing is remembered for any other key, and what is remembered is the result of that one call. |
| `Cache.OthersAreCalled` | cache.go:207-282 | Inputs that fail the check, of a function of more than 90, or with a NaN always lead to a call, and leave what is remembered alone. |
| `Cache.FaithfulExactlyIf` | cache.go:200-269 | Remembering cannot be noticed for a pure function exactly if it returns the same for inputs that share a key. |
| `Cache.Cacher.Lookup` | cache.go:200-282 | The closure does so with shared result arrays: the function is called exactly if the inputs fail the check, are more than 90 or hold a NaN, in which case what is remembered does not change, or if their key is not remembered. |
| `Cache.ReusableExactlyIfLast` | generate.go:290 | A remembered result can be used again by the wrapper of a fallible injector exactly if the TerminalError is its last value. |
| `Cache.TakenOut` | generate.go:290 | By position: what is used is the result without its TerminalError, and in the remembered array what followed that has moved one place down. |
| `Cache.RememberedUndisturbed` | generate.go:269-294 | In that case the wrapper leaves what is remembered as it is. |
| `Cache.Cacher.RunFallible` | generate.go:269-294 | The wrapper strips the TerminalError in place, which changes the remembered array as specified. |
| `Cache.Singleton.Get` | cache.go:154-171 | The first call's inputs decide for ever and the function runs once. |
| `Shadowing.CheckForShadowing` | shadowing.go:5-34 | Accepts exactly if every type returned over the head of somebody who returned it further down, or for the second time by the same provider, without having been received, is exempt. |
| `Shadowing.ReturnedOriginates` | shadowing.go:9-31 | If every received type is returned further down, whatever is returned has been returned by somebody who had not received it. |
| `Shadowing.AcceptedExactlyIfNothingIsLost` | shadowing.go:5-34 | For a run chain by itself: without allowances it is accepted exactly if nobody returns a type twice that it has not received, and in no run with at most one inner call per wrapper a returned value is overwritten by somebody who has not read it. |
| `ShadowingList.AcceptedExactlyIf` | bind.go:123-126 | The check on the whole list, excluded providers included, accepts exactly if it would accept the run chain made of it and there is no false alarm: an offending type of an excluded provider, or of one with an excluded provider behind it that originates the type, or of the final function with a fallible injector behind it. |
| `ShadowingList.ListAcceptedExactlyIf` | bind.go:118-126 | So for every self-consistent choice without Parallel wrappers and allowances the check that binding makes accepts exactly if nothing is lost in any run with at most one inner call per wrapper, nobody in the chain returns a type twice that it has not received, and there is no false alarm. |
| `ShadowingList.RejectedInVain` | bind.go:123-126 | A concrete list [invoke, excluded wrapper, final] that is rejected because of a provider that is not going to run. |
| `Shadowing.OnlyZerosBesides` | generate.go:238-247 | In such runs whatever comes up without having been returned is zero. |
| `Match.OneIsBest` | match.go:84-98 | The best match does not depend on the order in which the map is walked. |
| `Match.BestExactlyIf` | match.go:62-98 | The best match is the type that, against every other that implements the wanted one, has the higher layer, or else alone is of the package of the wanted type, or else has more methods, or else the higher code. |
| `Match.HighestCodeWins` | match.go:62-98 | Everything else being equal the highest type code wins. |
| `Match.ClosestLayerWins` | match.go:62-98 | The layer decides before everything else. |
| `Match.AGreaterB` | match.go:42-52 | The comparison of scores is the lexicographic order. |
| `Match.GreaterExactlyIf` | match.go:42-52 | One list is greater exactly if its number is in the first place where they differ, or it goes on where the other ends. |
| `Match.GreaterIsTotal` | match.go:42-52 | Of two scores one is greater, and both only if they are equal. |
| `Match.LooseInOrder` | match.go:101-109 | The providers marked Loose for the wanted type are listed in their order. |
| `Match.InterfaceMap.BestMatch` | match.go:54-108 | An exact match wins and is marked as consumed; otherwise the best implementing type, if one of its providers is loose. |

## Left out

- Interface matching inside inclusion, reordering and compilation: types match exactly there, so the maps of replaced types are the identity; `Match` treats the matcher alone.
- Go reflection, type interning, error texts, debugging output, the annotation API, the predicate tables of characterize.go (their results are inputs here), condense.go and flows.go.
- Include.Includer.ComputeDependenciesAndInclusion: providers are chain positions and their boolean fields are sets of positions; reordering, which comes first, is `ReorderGraph.Reorder`, and the marks it leaves are `givenUp`, an input here.
- Include.Includer.TryWithout: the texts that record why a provider stays or goes are not modelled.
- TopoSort.Topo.Run: the binary heap is a multiset from which the least element is taken; container/heap itself is not part of this model.
- ReorderGraph.Reorder: after a nil map has been followed nothing more is said.
- Closures.RunWrapper: inner calls come one after the other, each atomic; goroutine scheduling, recovery from panics and the conversion of results to interface types are left out, and a wrapper's strategy has a bound on its calls that may depend on the run.
- Closures.MakeZero: whether reflection can make a zero value for a type.
- Binder.DoBind: requires that every type that comes up has a position (`Supply.RoomForReturns`, which reordering can break only by moving entries past `invokeIndex`); without one the code uses position -1. The synthetic providers for debugging and for unused types are left out; sync.Once and the locks make each call atomic.
- DirectAgrees.HistoryIsDirect: histories in which invoke is called before init are left out there, and so are second inner calls, for which `Interp.CodeMeetsIdeal` gives the exact condition.
- Flatten.CharacterizeAndFlatten: providers that replace themselves, and moving non-final providers forward, happen before.
- ReorderOrder.OriginalOrder: gives a condition for the original order of two providers marked Reorder, not the exact one.
- ReplaceByName.HandleReplaceByName: requires that no directive refers to the name of the provider that carries it.
- ReplaceByName.Editor.Traverse: when a block is lost the model ends, where the code goes on with the chain that has lost it and with an index that still leads to the lost providers.
- SpliceSuccess.SucceedsExactlyIfResolvable: is about chains in which no provider that a directive refers to has a directive itself; for the others there are only `SpliceTail.CrashedOnlyBehindTheEnd`, `SpliceInput.TornOnlyIfSandwiched` and `SpliceResult.ChainAfterwards`.
- ReorderResult.StaticPhaseStaysInFront: is about lists in which every provider marked Reorder belongs to the run group and stands behind the static phase, and the static phase ends with a provider of the static group; `ReorderResult.LiteralOvertaken` shows what may happen otherwise.
- ReplaceByName.Editor.BuildIndex: the index holds values, not pointers to records shared with a local variable.
- Cache.Cacher.Lookup: which types can be keys is a parameter; the registry of caches by provider is not modelled.
- Curry.Curry: the checks that the arguments are functions and pointers at all.
- ShadowingList.ListAcceptedExactlyIf: is about lists without AllowReturnShadowing marks; `Shadowing.CheckForShadowing` has them.
