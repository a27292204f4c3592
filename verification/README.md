# A verified model of the LANA network stack

LANA is a kernel network stack made of small functional blocks that are wired together, rewired and
replaced while packets run through them. This project models its core in Dafny and proves what the
rest of the stack relies on. `dafny verify dfyconfig.toml` checks all of it.

| files | what they model |
|---|---|
| Common | idps, error codes and the option type |
| CritbitKeys, CritbitModel, CritbitMemory, Critbit, CritbitRcu, CritbitElems | the crit-bit tree of `src/xt_critbit.c`: keys and bits, the tree as a value, the tree in memory, the in-place operations, one writer against lock-free readers, and how long the strings at the leaves live |
| FblockGraph, FblockInvariant, FblockCommands, FblockRuns | the block graph of `src/xt_fblock.c` and the commands of `src/xt_user.c` as values: what each does, and what every run of them keeps |
| FblockEffects | what each command comes to, written out block by block: answers, ports, lists, counts, names |
| FblockSteps, FblockFindings | the commands in their separate accesses, a replace store by store, with packets in between, and runs that show where the code does not keep the invariant |
| FblockStack, FblockUser | the same functions and commands as objects changed in place, proved to do what the values do, and the dispatch of a control message |
| EngineModel, Engine | one CPU's packet engine (`src/xt_engine.c`, `src/fb_tee.c`) and the reference it is proved against |
| EngineMachine, EngineTrace, EngineTimer | the engines of all CPUs, with interrupts and timers, as a step machine, what packets carry through it and how they leave, and when a timer takes a packet and its own check holds |
| Seqlock | the port reads of `src/fb_dummy.c` and `src/fb_tee.c` against a writer |
| BpfText, BpfLayout, BpfReads, BpfInstall | printing, parsing and installing filter programs (`src/fb_bpf.c`), every way to write a program, and when the parser reads behind its text |
| VlinkList, Vlink | the callback lists of `src/xt_vlink.c` |

## How the parts are modelled

*Crit-bit tree.* A key is a byte string without NUL; its bits go on with zeros for ever. The tree
exists three times: as a datatype, as the set of node objects that `CritbitTree` rewrites through
slots, and as a memory map in the machine with readers. `call_rcu` is a contract: a callback runs
only after every reader that was inside its section at the call has left. Memory accesses are
sequentially consistent. The writer's walks are single steps, since only the lock holder changes the
tree; every store is a step of its own, and so is a reader's visit to a node: position byte and mask
of a node do not change once it is published, so of the visit's loads only that of the child pointer
can meet a store. `CritbitElems` adds the strings at the leaves: an element is allocated before it is
inserted, and after its deletion it is handed to a callback of its own, as
`src/xt_fblock.c:56-87` does with the entries of the namespace.

*Block graph.* The radix tree is a map. All blocks are two-port blocks with the event handler that
dummy, counter and bpf share. Blocks of the vlink layer have no factory: remove and replace refuse
them, and nothing frees them. `held` are the references that packet traversals and running commands
hold, so a command's lookup and its `put_fblock` are steps like any other; `kept` are those of them
that a replace took on a block without a factory and never gives back. The invariant (`Inv`)
says: registry and namespace agree; every CPU has the same ports; ports are symmetric and lead to
registered blocks; each binding has its notifier entries; each reference count is one for the
registry, one per bound port, one per notifier owned, one per notifier naming the block, one per
held reference; and exactly the objects with count 0 and a factory have been freed, once. Runs have
fewer than 2^32 adds. In `FblockRuns` a command is one step. `FblockSteps` takes it apart into its
lookups, its count test, its work, and its puts, and the exchange of a replace into its five parts
(the replacement out of registry and namespace; private data; names, lists and counts; the old block
out of the registry; the new one in). Packets enter and leave blocks between any two of these, and
the same is proved for every interleaving; within an exchange the invariant holds of the state in
which it is thought away or, from the exchange of the counts on, completed (`Whole`), and
`SeenDuringExchange` says what a packet finds meanwhile. A command run on its own is the command of
`FblockRuns` (`CommandIsAccesses`).

*Where the code does not keep the invariant* the exact condition is proved instead, and
`FblockFindings` has a short run from an empty stack for each:
- an add whose name is new but whose stored form, cut to 15 characters, is taken leaves a registry
  entry for an object that has been freed (`AddKeepsInvIff`, `LongNameDangles`);
- a replace while a packet is inside the block being replaced, or with its bound ports dropped or
  not moved, leaves wrong counts (`ReplacedKeepsInvIff`, `ReplaceUnderTraversal`,
  `ReplaceDropsPorts`), and so does one where a packet enters the old block between the test and the
  exchange of the counts (`AccessKeepsIff`, `PassSpoilsExchange`, `ReplaceRace`,
  `ReplaceRaceHappens`);
- a user's unsubscribe without a spare entry for the remote block drops references it does not own
  or takes a binding's entry (`UnsubscribeKeepsInvIff`, `UnsubscribeMissing`,
  `UnsubscribeTakesBinding`).

A replace that names a block without a factory keeps the invariant but not its promise to put back
what it took: it never gives up its reference on that block (`ReplaceKeepsReferenceIff`,
`KeptForGood`).

Elsewhere the code fails a property, with its exact condition:
- a drop noted in a repeated pass of the port read stays (`Seqlock.VerdictRightIff`,
  `Seqlock.StaleDrop`), as does a tee's clone port (`Seqlock.CopyExact`, `Seqlock.StaleClone`), and
  the sequence counter can wrap within one pass, after which success can come without a next block
  (`Seqlock.SuccessWithoutNextIff`, `Seqlock.WrapAroundFails`);
- the timer's check that there is a packet fails if the packets it has seen are taken before it gets
  to them (`EngineTimer.TimerFindsNothingIff`, `EngineTimer.TimerCheckFails`);
- the parser reads behind a text whenever one of its rounds ends with the text, which is always when
  it succeeds (`BpfReads.ReadsBehindIff`, `BpfReads.ParsedReadsBehind`), and what it finds there
  matters if the text ends within its last number (`BpfText.IndependentIff`, `BpfText.CutLine`);
- a callback added a second time cuts off its successors of equal priority or closes the list into a
  circle (`Vlink.Subsys.AddCallback`).

Also, the notifier taken off the head of a list is never taken off the peer's chain
(`FblockStack.Stack.UnsubscribeFrom` states when it is).

*Engine.* A packet carries its next block and its direction. `failing` are the copies for which no
memory is found. In the machine a block call is a step whose outcome is free, except that a block
sends a packet or a copy on only to a block; `Seqlock.NetrxSuccess` is why. A packet that enters
without a next block is lost, as in the code. Interrupts may nest to any depth on any CPU, which is
more than the kernel allows; what is proved for all runs of the machine holds for those of the kernel.

*Filter text.* `simple_strtoul` is a contract: in base 16 a prefix 0x is passed over, then digits
are read as long as there are any. The parser is given a memory and a length: the text is the first
`len` characters, and behind them the memory holds anything, up to a NUL, at which every scan ends.

## Model

| member | source | states |
|---|---|---|
| CritbitKeys.Direction | src/xt_critbit.c:111 | the carry expression is 1 exactly when mask and byte together have all bits set, that is when the selected bit is set |
| CritbitKeys.IsolateHighest | src/xt_critbit.c:211-213 | the loop leaves the complement mask of the highest set bit |
| CritbitKeys.HighIndexIsFirstDiff | src/xt_critbit.c:198-213 | the isolated bit of the xor is the first bit at which two bytes differ |
| CritbitKeys.CritBitOf | src/xt_critbit.c:196-213 | first differing byte and isolated bit together are the first differing bit of the two keys |
| CritbitKeys.PositionOrder | src/xt_critbit.c:228-231 | the byte and mask comparison of the second walk is the order of bit positions |
| CritbitKeys.FirstDiffOrders | src/xt_critbit.c:196-215 | the first differing bit decides the unsigned byte order of two keys |
| CritbitModel.FindDecides | src/xt_critbit.c:103-115 | the leaf the direction walk reaches has the key if and only if the key is in the tree, and is then its element |
| CritbitModel.BestMatch | src/xt_critbit.c:187-215 | no leaf shares a longer bit prefix with the key than the leaf the walk reaches |
| CritbitModel.CritPosition | src/xt_critbit.c:196-214 | the position isolated from that one leaf is the critical bit |
| CritbitModel.SpliceWF | src/xt_critbit.c:223-240 | the new node at the critical bit keeps positions strictly increasing on every path and the bits of all keys right |
| CritbitModel.SpliceContent | src/xt_critbit.c:223-240 | insertion adds exactly the new element |
| CritbitModel.UnlinkWF | src/xt_critbit.c:274-293 | deletion keeps the tree well formed |
| CritbitModel.UnlinkContent | src/xt_critbit.c:274-293 | deletion removes exactly one key |
| CritbitModel.UnlinkUndoesSplice | src/xt_critbit.c:239-293 | unlinking what was just spliced in gives back the same tree |
| CritbitModel.Canonical | src/xt_critbit.c:196-240 | two well-formed trees with the same elements have the same shape |
| CritbitModel.InOrderSorted | src/xt_critbit.c:196-240 | the leaves from left to right are strictly increasing in unsigned byte order |
| CritbitModel.InsertKeyRefines | src/xt_critbit.c:167-242 | insertion refines adding to a finite map, and changes nothing when the key is present |
| CritbitModel.DeleteKeyRefines | src/xt_critbit.c:262-296 | deletion refines removing from a finite map, and changes nothing when the key is absent |
| CritbitModel.DeleteUndoesInsert | src/xt_critbit.c:167-296 | inserting a new key and deleting it restores the tree |
| CritbitModel.InsertionOrderIrrelevant | src/xt_critbit.c:167-242 | any two insertion orders of the same elements build the same shape |
| CritbitMemory.RepUnique | src/xt_critbit.c:44-49 | memory represents at most one tree from a pointer |
| CritbitMemory.SpliceRep | src/xt_critbit.c:239-240 | one pointer store of the prepared node into the slot turns memory into the tree with the key |
| CritbitMemory.UnlinkRep | src/xt_critbit.c:293 | one pointer store of the sibling into the slot turns memory into the tree without the key |
| CritbitMemory.ViewStore | src/xt_critbit.c:223-240 | a store into a shared slot keeps an older view a reader still walks well formed |
| Critbit.CritbitTree.Walk | src/xt_critbit.c:187-194 | the loop returns the leaf of the model walk |
| Critbit.CritbitTree.Contains | src/xt_critbit.c:91-116 | true exactly for the keys in the map, also on the empty tree |
| Critbit.CritbitTree.Get | src/xt_critbit.c:129-154 | the very element inserted under the key, or null |
| Critbit.CritbitTree.FirstDifference | src/xt_critbit.c:196-213 | finds the first differing byte and its mask, or that the keys are equal |
| Critbit.CritbitTree.Store | src/xt_critbit.c:240 | one slot changes and nothing else |
| Critbit.CritbitTree.FindSlot | src/xt_critbit.c:223-237 | the second walk ends at the slot where splicing here is splicing into the tree |
| Critbit.CritbitTree.MakeNode | src/xt_critbit.c:214-221 | the new node has the critical position, and the element on its own side |
| Critbit.CritbitTree.Publish | src/xt_critbit.c:239-240 | completing and storing the node refines the splice |
| Critbit.CritbitTree.Link | src/xt_critbit.c:210-241 | everything after the difference is known refines the splice |
| Critbit.CritbitTree.Insert | src/xt_critbit.c:167-242 | -EEXIST exactly when the key is present and then nothing changes, -ENOMEM without memory, else the map gains the element |
| Critbit.CritbitTree.WalkToParent | src/xt_critbit.c:274-283 | the delete walk ends with the leaf, its parent, the slot of the parent and the side |
| Critbit.CritbitTree.UnlinkNode | src/xt_critbit.c:293 | storing the sibling refines the unlink; the node itself stays as it was for readers |
| Critbit.CritbitTree.Delete | src/xt_critbit.c:262-296 | removes exactly the key; -ENOENT exactly when the tree is not empty and the key absent; 0 on the empty tree |
| CritbitRcu.PublishHolds | src/xt_critbit.c:239-240 | the publishing store keeps every reader's walk consistent |
| CritbitRcu.UnlinkHolds | src/xt_critbit.c:293 | so does the unlinking store, also for readers standing on the node |
| CritbitRcu.ReclaimHolds | src/xt_critbit.c:256-260 | when a callback runs, no reader can reach the node |
| CritbitRcu.StepKeepsInv | src/xt_critbit.c:91-296 | every step of writer, readers and callbacks keeps the invariant |
| CritbitRcu.NoUseAfterFree | src/xt_critbit.c:106-113 | in every run a reader's next load is from a node whose callback has not run |
| CritbitRcu.SeenIsHistory | src/xt_critbit.c:103-115 | what a lookup has noted was in the tree during the lookup |
| CritbitRcu.LookupLinearizable | src/xt_critbit.c:103-115 | in every run the result of a lookup is what the tree held under the key at one moment of it |
| CritbitRcu.StableKeyLookup | src/xt_critbit.c:103-115 | a key present throughout is found with its element, a key absent throughout is not |
| CritbitRcu.InsertEnabled | src/xt_critbit.c:181-240 | in every run an idle writer with memory can insert any absent key, at the place the walk finds |
| CritbitRcu.DeleteEnabled | src/xt_critbit.c:262-293 | in every run an idle writer can delete any present key |
| CritbitElems.FreeGood | src/xt_fblock.c:69-73 | when the callback of a deleted element runs, no reader can come to compare with its string |
| CritbitElems.ActKeepsGood | src/xt_fblock.c:56-87 | every step of writer, readers and both kinds of callbacks keeps nodes and strings in order |
| CritbitElems.NoFreedString | src/xt_critbit.c:103-115 | in every run a reader at a leaf compares its key with the string that was inserted, not freed and not overwritten |
| CritbitElems.StringsAccounted | src/xt_fblock.c:56-87 | in every run each element in the tree stands in memory under its key and is not on its way out |
| CritbitRcu.NodesAccounted | src/xt_critbit.c:216-296 | each node in memory is live, in the writer's hands or waiting for its callback, and only one of these |
| FblockInvariant.TakeKeepsInv | src/xt_fblock.h:112-115 | looking a registered block up keeps the invariant |
| FblockInvariant.ReleaseKeepsInv | src/xt_fblock.h:117-126 | putting a held block back keeps it; the last put frees the object if it has a factory |
| FblockInvariant.SubscribeCounts | src/xt_fblock.c:473-492 | a subscription keeps the counts |
| FblockInvariant.UnsubscribeCounts | src/xt_fblock.c:495-527 | taking an existing entry out keeps the counts |
| FblockInvariant.BoundPointwise | src/xt_fblock.c:275-330 | what a bind does to each block: ports, list, three references |
| FblockInvariant.BoundKeepsInv | src/xt_fblock.c:275-330 | a successful bind keeps the whole invariant |
| FblockInvariant.BoundAmple | src/xt_fblock.c:346-386 | bound blocks have the entries and references an unbind takes away, and more |
| FblockInvariant.UnboundPointwise | src/xt_fblock.c:346-386 | what an unbind does to each block; nothing is freed |
| FblockInvariant.UnboundKeepsInv | src/xt_fblock.c:346-386 | a successful unbind keeps the whole invariant |
| FblockInvariant.UnbindUndoesBind | src/xt_fblock.c:286-385 | unbind after bind restores ports on every CPU, both counts and both lists |
| FblockCommands.SubscribeKeepsInv | src/xt_fblock.c:473-492 | a user's subscription keeps the invariant |
| FblockCommands.UnsubscribeKeepsInvIff | src/xt_fblock.c:495-527 | a user's unsubscribe keeps it exactly when the list is empty or has more entries for the remote than bindings to it |
| FblockCommands.TestIsolates | src/xt_user.c:83-90 | a block that passes the count test has no ports, no notifiers, and nobody points to it or names it |
| FblockCommands.UnregisterKeepsInv | src/xt_fblock.c:452-458 | unregistering a block that passed the test keeps the invariant |
| FblockCommands.ReplacedKeepsInvIff | src/xt_user.c:92-101 | the exchange of a replace keeps the invariant exactly when both blocks are held equally often and the old one's ports move along or are unbound |
| FblockRuns.BindCommand | src/xt_user.c:185-207 | a bind binds, or refused by either block changes nothing at all |
| FblockRuns.UnbindCommand | src/xt_user.c:209-231 | an unbind takes the binding apart exactly when the two are bound to each other and else changes nothing: no block is left half unbound |
| FblockRuns.UnbindCommandUndoesBind | src/xt_user.c:185-231 | bind and unbind by name restore the whole state |
| FblockRuns.PairKeepsInvIff | src/xt_user.c:61-231 | each command on two blocks keeps the invariant exactly under its condition, and keeps no references but the one of a replace on a block without a factory |
| FblockRuns.ReplaceKeepsReferenceIff | src/xt_user.c:73-81 | a replace keeps a reference for good if and only if the first block it finds, or the second after it, has no factory; then exactly one, on that block |
| FblockRuns.KeptForGood | src/xt_user.c:73-81 | in every safe run a block on which a reference was kept stays: its count never falls to what was kept and it is never freed |
| FblockRuns.RemoveKeepsInv | src/xt_user.c:159-183 | remove keeps the invariant |
| FblockRuns.RegisterKeepsInvIff | src/xt_fblock.c:417-425 | registering any new block keeps the invariant exactly when the stored form of its name is not taken |
| FblockRuns.AddKeepsInvIff | src/xt_user.c:28-42 | add keeps it exactly when the stored form of a new name is not taken |
| FblockRuns.StepKeepsInvIff | src/xt_user.c:28-231 | any whole command, lookup or put by a packet keeps the invariant if and only if it is safe |
| FblockRuns.ReachableInv | src/xt_user.c:28-231 | every state that safe whole commands and packet traversals reach satisfies the invariant |
| FblockRuns.BoundBlockStays | src/xt_user.c:73-90 | in every safe run a bound block never passes the tests of remove or replace: with a factory it is busy and nothing changes, without one it is refused |
| FblockRuns.ReplaceTransparent | src/xt_user.c:73-106 | between blocks with factories a same-type replace without drop leaves everything reached by other idps and names as it was, self references point to the new owner, and only the old object dies, once |
| FblockRuns.PortsAgree | src/fb_dummy.c:80-115 | in every safe run and on every CPU a's egress is b exactly when b's ingress is a, and no port dangles |
| FblockRuns.CountsExplained | src/xt_fblock.h:112-126 | after every safe run, what each reference count is made of, and when an object is freed |
| FblockEffects.RegisterEffect | src/xt_fblock.c:417-425 | the new block is in the registry under the next idp, and in the namespace under its name cut to 15 characters unless that is taken (-ENOMEM); its type, ports on every CPU, list, count; nothing else changes |
| FblockEffects.AddEffect | src/xt_user.c:28-42 | for every type and name: -EINVAL if the name is there, -ENOMEM without a factory or with the stored name taken, else 0 and the stored name leads to a block of that type, unbound on every CPU, with count 1; all other blocks, names and idps are as before |
| FblockEffects.RemoveEffect | src/xt_user.c:159-183 | a block goes exactly when it has a factory, is isolated and no packet is inside; it is freed and nothing else changes; else nothing changes and the answer says why |
| FblockEffects.MissingEffect | src/xt_user.c:61-231 | a command on two blocks answers -EINVAL exactly when one is not there, or a replace meets one without a factory, and what it leaves behind then |
| FblockEffects.BindEffect | src/xt_user.c:185-207 | a bind succeeds exactly when egress of the first and ingress of the second are unbound on every CPU; then they lead to each other on every CPU, the other ports stay, lists and counts grow as told; else nothing changes |
| FblockEffects.UnbindEffect | src/xt_user.c:209-231 | an unbind succeeds exactly when the two lead to each other on every CPU, and takes just that away |
| FblockEffects.SubscribeEffect | src/xt_user.c:109-134 | the second block gets an entry for the first at the head of its list, each a reference, nothing else changes |
| FblockEffects.UnsubscribeEffect | src/xt_user.c:136-157 | unless its list is empty the second block loses its first entry for the first, if there is one, and both lose a reference all the same; what that frees |
| FblockEffects.RemoveFirstIs | src/xt_fblock.c:503-517 | a list without its first entry for an idp has all other entries in their order |
| FblockEffects.ReplaceEffect | src/xt_user.c:61-107 | a replace succeeds exactly when the two differ, the replacement is isolated and no packet is inside it; it then has the old one's name, idp, subscribers, list in order and count, and its ports if the types agree and they are not dropped; the old one is freed |
| FblockEffects.NamesAgree | src/xt_fblock.c:417-463 | in every safe run each name leads to the block of that name, and each registered block is found by its idp and its name |
| FblockEffects.ListsExplained | src/xt_fblock.c:473-492 | in every safe run each list entry is its owner's and names a registered block, and each bound port has one |
| FblockSteps.UnlistInv | src/xt_user.c:173-180 | a block that passed the test of remove can go however many packets entered it since |
| FblockSteps.RestDoneIs | src/xt_user.c:92-101 | once the counts are exchanged, what is left of the exchange leads to the replacement of the value model, whatever packets did before |
| FblockSteps.MoveRestIff | src/xt_fblock.c:236-269 | the exchange of the counts, whatever happened since the test, keeps the invariant exactly when both blocks are held equally often then and the ports have moved or are unbound |
| FblockSteps.ExchangeKeepsIff | src/xt_user.c:92-101 | so of the five parts of a replace's exchange only that one has a condition |
| FblockSteps.PassKeeps | src/xt_fblock.c:134-143 | a packet may look a block up between any two accesses, also within an exchange: what it finds is alive |
| FblockSteps.QuitKeeps | src/xt_fblock.h:117-126 | and may put its block back there |
| FblockSteps.AccessKeepsIff | src/xt_user.c:28-231 | any single access of a command or of a packet keeps the invariant, and what the command in progress knows, if and only if it is safe; only the exchange of the counts minds packets |
| FblockSteps.InterleavedInv | src/xt_user.c:28-231 | in every interleaving of safe accesses, packets coming and going inside commands and between the stores of a replace, the invariant holds of the whole state and the command in progress is right about its blocks |
| FblockSteps.TestedStaysIsolated | src/xt_user.c:83-92 | in every such run a block about to be removed or to replace another has no bound port and no notifier, and nobody points to it or names it, whatever packets did since its test |
| FblockSteps.SeenDuringExchange | src/xt_user.c:92-101 | what a packet finds at each stage of an exchange: the old block as before, then one without bound ports, then none, until the new one is there; any other block is found as it is |
| FblockSteps.PassSpoilsExchange | src/xt_user.c:94-97 | a packet that enters the old block before the counts are exchanged makes every safe exchange unsafe |
| FblockSteps.CommandIsAccesses | src/xt_user.c:28-231 | the accesses of a command run on their own do what the whole command does, for every command and outcome |
| FblockSteps.ReplaceRace | src/xt_user.c:83-97 | every replace that is safe as a whole breaks the invariant when a packet enters the old block between test and exchange |
| FblockFindings.LongNameDangles | src/xt_user.c:28-42 | 16 letters in the name field, which then run on into the type, with the first 15 taken: the add breaks the invariant |
| FblockFindings.ReplaceUnderTraversal | src/xt_user.c:92-104 | a replace while a packet is inside the old block breaks it |
| FblockFindings.ReplaceDropsPorts | src/xt_user.c:94-97 | a replace of a bound block with its private data dropped breaks it |
| FblockFindings.ReplaceRaceHappens | src/xt_user.c:83-97 | two fresh blocks: a packet between test and exchange breaks it |
| FblockFindings.UnsubscribeMissing | src/xt_fblock.c:500-526 | an unsubscribe that finds nothing breaks it |
| FblockFindings.UnsubscribeTakesBinding | src/xt_fblock.c:500-526 | an unsubscribe between two bound blocks takes the binding's own entry and breaks it |
| FblockStack.Fblock.constructor | src/fb_dummy.c:133-167 | a new block has a cut name, unbound ports on every CPU and one reference |
| FblockStack.WritePorts | src/fb_dummy.c:80-92 | the event loop writes the ports of the leading CPUs that have the expected value, and succeeds exactly when that is all of them |
| FblockStack.Stack.Get | src/xt_fblock.h:112-115 | one more reference |
| FblockStack.Stack.Put | src/xt_fblock.h:117-126 | one reference less; the drop to 0 hands an object with a factory to the free callback |
| FblockStack.Stack.BindEvent | src/fb_dummy.c:76-98 | sets the port up to the first CPU where it is bound |
| FblockStack.Stack.UnbindEvent | src/fb_dummy.c:99-121 | clears the port up to the first CPU where it is not bound to the idp |
| FblockStack.AllOrNone | src/fb_dummy.c:80-115 | with equal replicas an event changes all CPUs or none |
| FblockStack.Stack.SubscribeTo | src/xt_fblock.c:473-492 | refines the subscription |
| FblockStack.WithoutFirst | src/xt_fblock.c:503-517 | the list walk removes the first entry for the remote; found is set exactly when it was not the head |
| FblockStack.Stack.UnsubscribeFrom | src/xt_fblock.c:495-527 | refines the unsubscription, and says when the peer's chain is updated |
| FblockStack.Stack.Bind | src/xt_fblock.c:275-330 | refines the bind or leaves everything as it was; the panic is not reached |
| FblockStack.Stack.Unbind | src/xt_fblock.c:346-386 | refines the unbind |
| FblockStack.UpdateSelfref | src/xt_fblock.c:205-212 | every entry of the list gets the new owner |
| FblockStack.Stack.MigrateP | src/xt_fblock.c:220-233 | the two blocks exchange their private data, nothing is freed |
| FblockStack.Stack.MigrateR | src/xt_fblock.c:236-269 | one takes over name and idp, and lists, subscribers and counts are exchanged |
| FblockStack.Stack.UnregisterNamespaceNoRcu | src/xt_fblock.c:452-470 | out of registry and namespace, count unchanged |
| FblockStack.Stack.UnregisterNamespace | src/xt_fblock.c:452-463 | out of both, one reference less |
| FblockStack.Stack.UnregisterFblock | src/xt_fblock.c:441-445 | out of the registry only |
| FblockStack.Stack.RegisterFblock | src/xt_fblock.c:405-409 | the block carries the given idp and is in the registry under it, or that idp is taken and only the block changes |
| FblockStack.Stack.RegisterNamespace | src/xt_fblock.c:417-425 | next idp, registry, then namespace; a taken name leaves the registry entry |
| FblockStack.Stack.SearchByName | src/xt_fblock.c:147-158 | finds the block a name leads to and takes a reference, or changes nothing |
| FblockCommands.ReplaceSteps | src/xt_user.c:92-101 | the steps of a replace compose to the replacement of the value model |
| FblockUser.UserAdd | src/xt_user.c:28-42 | refines add, for every outcome |
| FblockUser.UserRemove | src/xt_user.c:159-183 | refines remove, which refuses blocks without a factory |
| FblockUser.UserReplace | src/xt_user.c:61-107 | refines replace, with both factory tests and the reference each keeps |
| FblockUser.TakeOver | src/xt_user.c:92-101 | the part of replace after the tests refines the replacement |
| FblockUser.UserBind | src/xt_user.c:185-207 | refines bind |
| FblockUser.UserUnbind | src/xt_user.c:209-231 | refines unbind |
| FblockUser.UserSubscribe | src/xt_user.c:109-134 | refines subscribe |
| FblockUser.UserUnsubscribe | src/xt_user.c:136-157 | refines unsubscribe |
| FblockUser.UserRcv | src/xt_user.c:242-275 | a control message served on a graph that satisfies the invariant has its command's effect and answer, and the invariant holds again if and only if the message was safe |
| EngineModel.PathFollowsPorts | src/xt_engine.c:125-143 | a packet's path starts at its next block, goes on through the port of its direction each time, and ends where that leads to no block |
| EngineModel.CodeByPath | src/xt_engine.c:127-142 | the code is PPE_ERROR exactly when the packet was sent to an idp that is not registered or had no block to begin with, else PPE_DROPPED; and how each traversal ends |
| EngineModel.SpawnedOnPath | src/fb_tee.c:45-65 | the copies a packet leaves are those of the tees on its path, in order, same data and direction, each to the tee's third port |
| EngineModel.WaysBounded | src/xt_engine.c:125-143 | no way over ports and clones has more steps than the number the bound is stated with |
| EngineModel.LongestWay | src/xt_engine.c:125-143 | and one has as many |
| EngineModel.WorkSplits | src/fb_tee.c:45-65 | a packet's work is its own visits and the work of the copies it leaves, less only where a copy found no memory |
| EngineModel.CallsBounded | src/xt_engine.c:125-143 | at most 2^(r+1) - 1 block calls for a packet whose longest way has r steps |
| EngineModel.BoundReached | src/fb_tee.c:54-60 | for every r a tower of tees needs exactly that many |
| EngineModel.DrainAllInOrder | src/xt_engine.c:118-146 | draining walks every waiting packet and every copy once, in order of arrival, each along its own path to its own end |
| EngineModel.DrainAllCalls | src/xt_engine.c:118-146 | draining makes exactly as many block calls as the waiting packets are worth when no copy fails, never more |
| Engine.Engine.BacklogTail | src/xt_engine.c:68-72 | appends the packet with the direction written into it |
| Engine.Engine.BacklogTestReduce | src/xt_engine.c:75-81 | takes the oldest packet, if there is one |
| Engine.Engine.NetRx | src/fb_tee.c:33-66 | sends the packet on in its direction, queues the copy even when the packet is dropped, drops on an unbound port |
| Engine.Engine.Traverse | src/xt_engine.c:119-143 | the inner loop visits exactly the packet's path, returns PPE_ERROR exactly when no block is ahead, and queues exactly its copies |
| Engine.Engine.Drain | src/xt_engine.c:118-146 | the loop over the backlog is the reference drain and terminates |
| Engine.Engine.ProcessPacket | src/xt_engine.c:107-150 | a nested call only queues; an outermost call drains everything in order and ends inactive with an empty backlog, after at most 2^(r+1) - 1 block calls if the backlog was empty; it returns PPE_ERROR exactly when the last packet walked has no registered block to go to |
| Engine.CallsOfOnePacket | src/xt_engine.c:107-150 | on an idle CPU with an empty backlog the whole call makes at most 2^(r+1) - 1 block calls, copies included |
| EngineMachine.StepConserves | src/xt_engine.c:107-183 | every step keeps each packet in exactly one place |
| EngineMachine.StepOrderly | src/xt_engine.c:107-183 | every step keeps the flags, queues and nested calls of all CPUs in order |
| EngineMachine.EveryRun | src/xt_engine.c:107-183 | both hold after every interleaving of CPUs, interrupts and timers |
| EngineMachine.NeverLost | src/xt_engine.c:113-149 | in every run a packet that entered with a next block, or a copy, is inside, freed or handed over, and only one of these |
| EngineMachine.OneTraversal | src/xt_engine.c:113-121 | in every run at most one packet is in traversal on a CPU, and the active flag says whether there is one |
| EngineMachine.InHandOnly | src/xt_engine.c:134-142 | in every run the packet the running call reads was not freed, handed over or queued |
| EngineMachine.FirstInFirstOut | src/xt_engine.c:68-81 | in every run the k-th packet to leave a backlog, however much later, is the k-th that was queued there, with its direction |
| EngineTrace.DequeueWalksOldest | src/xt_engine.c:145-146 | in every run a call that finds packets waiting walks the oldest, with the next block and direction it was queued with |
| EngineTrace.CheckQueuesOwn | src/xt_engine.c:113-116 | in every run a call on a CPU at work queues the packet it came with, last, and ends |
| EngineTrace.CopyQueuesDirection | src/fb_tee.c:54-60 | in every run a copy is queued for the port in the direction of its original |
| EngineTrace.CarriedAlong | src/xt_engine.c:68-146 | in every run every packet, queued or in hand on any CPU, has the next block and direction it was last sent with |
| EngineTrace.FatesExplained | src/xt_engine.c:125-143 | in every run the packets handed over, freed and lost are those of the steps that did so to the packet in hand, and those without a next block entered so |
| EngineTrace.NeverStuck | src/xt_engine.c:107-175 | in every run a call in progress can go on |
| EngineTimer.LeftBehindWereLate | src/xt_engine.c:145-148 | in every run a packet waits on an idle CPU only if, at the step that queued it, the call at work had found the queue empty and was about to clear the flag |
| EngineTimer.TimerServes | src/xt_engine.c:161-175 | a timer that runs undisturbed takes the oldest packet left behind |
| EngineTimer.TimerTakesIff | src/xt_engine.c:161-175 | undisturbed, a timer takes a packet, the oldest, if and only if the CPU is idle, packets wait there, and it is its own or more than 150 wait; else nothing changes |
| EngineTimer.TimerFindsNothingIff | src/xt_engine.c:163-174 | after its test for an empty queue the timer finds no packet if and only if the steps in between took all that was there and all that came |
| EngineTimer.TimerCheckFails | src/xt_engine.c:163-174 | for any two CPUs and any number of packets over 150 a run from the initial state in which the timer of one sees them waiting at the other and finds none when it gets to them |
| EngineTimer.TimerCheckHolds | src/xt_engine.c:163-174 | in every run in which nobody else takes a packet from a queue a timer has seen, the timer always finds one |
| Seqlock.StepKeepsInv | src/fb_tee.c:45-52 | every step of reader and writer keeps: while no increment falls into the pass the ports have one value each, and the reader's variables are what those and the earlier passes make them |
| Seqlock.SeenMeans | src/fb_dummy.c:45-51 | the port values a pass is said to have met are those the ports had since it began, neither more nor fewer |
| Seqlock.TicksMean | src/fb_dummy.c:84-86 | the increments said to fall into it are the writer's since it began |
| Seqlock.NetrxSuccess | src/fb_dummy.c:45-55 | success means a next block that is set and that the port led to all through the final pass, if fewer than 2^32 increments fell into it |
| Seqlock.VerdictExact | src/fb_dummy.c:45-55 | in every such run the packet is dropped exactly when the port was unbound in the final pass or the drop mark was set when that pass began |
| Seqlock.StaleDropIff | src/fb_dummy.c:45-50 | the mark was set then exactly when the second read of an earlier pass found the port unbound |
| Seqlock.VerdictRightIff | src/fb_dummy.c:45-55 | the verdict is the final pass's own if and only if that pass drops too or no earlier second read found the port unbound |
| Seqlock.CopyExact | src/fb_tee.c:45-60 | a tee's copy goes to the clone port of the final pass or, if that is unbound, to the one an earlier pass read; it agrees with the final pass if and only if that port is bound or none was read before |
| Seqlock.CopyMeans | src/fb_tee.c:50-57 | where the copy goes is what the last read of the clone port found, in whatever pass |
| Seqlock.StaleCopyMeans | src/fb_tee.c:45-52 | what a pass begins with is what the last such read before it found |
| Seqlock.SuccessWithoutNextIff | src/fb_dummy.c:45-55 | in every run success comes without a next block if and only if no drop was marked and the two reads of the final pass found the port unbound, then bound; they can differ only after a positive multiple of 2^32 increments in that pass |
| Seqlock.WrapAroundFails | src/fb_dummy.c:84-86 | a run with 2^32 increments in one pass in which success is returned with no next block |
| Seqlock.StaleDrop | src/fb_dummy.c:48-53 | a run in which a drop noted in a repeated pass drops the packet although the port was bound in the final one |
| Seqlock.StaleClone | src/fb_tee.c:50-58 | a run in which the copy goes to a clone port that was unbound in the final pass |
| BpfText.NumeralRoundTrip | src/fb_bpf.c:314-319 | a printed number stands for itself |
| BpfText.Print | src/fb_bpf.c:311-322 | the loop prints each line cut to what the buffer holds |
| BpfText.LineIsHeadAndClosing | src/fb_bpf.c:312-320 | the cut takes the newline, or brace and newline, but never a digit |
| BpfText.TextFits | src/fb_bpf.c:335-349 | the text of fewer than 512 instructions fits the write buffer |
| BpfText.SkipGap | src/fb_bpf.c:373-387 | passes over blanks and braces before, blanks and commas between, blanks, commas, braces and newlines behind the numbers, and stops at the first other character |
| BpfText.ReadNumber | src/fb_bpf.c:375 | value and end of the number at a position |
| BpfText.ReadInstr | src/fb_bpf.c:373-387 | one round of the loop reads one instruction |
| BpfText.Parse | src/fb_bpf.c:368-395 | the loop terminates on every text in every memory and fills the array with the parsed instructions, or gives up at 512 |
| BpfText.ParsesLine | src/fb_bpf.c:311-389 | a printed line is read back as its instruction, whatever stands behind it |
| BpfText.RoundTrip | src/fb_bpf.c:311-389 | printing fewer than 512 instructions and parsing gives the same program, whatever the memory holds behind the text |
| BpfLayout.AnyLayoutParses | src/fb_bpf.c:372-389 | a program of fewer than 512 instructions parses back from every text that spells its numbers, in either case, prefixed or not, with any gaps over those characters; one of 512 or more is refused |
| BpfLayout.NumeralPlain | src/fb_bpf.c:314-319 | a number is printed in lower case without leading zeros |
| BpfLayout.LineFormat | src/fb_bpf.c:311-320 | a printed line, character by character, cut to 31 |
| BpfText.NulIsRefused | src/fb_bpf.c:372-395 | a NUL where an instruction should start makes the parser give up |
| BpfText.IndependentIff | src/fb_bpf.c:353-389 | the result does not depend on the memory behind the text if and only if the fourth number of the last instruction ends before the text does, or there are too many |
| BpfText.CutLine | src/fb_bpf.c:353-389 | a line cut off behind its last number takes a hexadecimal digit behind the text into that number |
| BpfReads.ReadsBehindIff | src/fb_bpf.c:353-389 | the parser reads behind the text if and only if one of its rounds ends with the text; else it returns what it returns in any memory |
| BpfReads.ParsedReadsBehind | src/fb_bpf.c:353-389 | no text but the empty one is parsed to a program without a read behind it |
| BpfReads.PrintedReadsBehind | src/fb_bpf.c:311-389 | so every printed program reads behind a buffer of just its length |
| BpfInstall.FilterBlock.InitFilter | src/fb_bpf.c:80-121 | a copy of the program is on the CPU, or nothing changed and the copy was freed |
| BpfInstall.FilterBlock.CleanupFilter | src/fb_bpf.c:153-167 | the CPU has no filter and the old one was freed |
| BpfInstall.FilterBlock.InitFilterCpus | src/fb_bpf.c:123-151 | succeeds exactly when every CPU finds memory and the program passes the check, and then all have it |
| BpfInstall.FilterBlock.CleanupFilterCpus | src/fb_bpf.c:169-188 | no CPU has a filter |
| BpfInstall.FilterBlock.Write | src/fb_bpf.c:405-414 | all CPUs hold copies of the program or none holds any, whichever failed; every filter is installed or freed once |
| VlinkList.AddStable | src/xt_vlink.c:122-130 | adding keeps priorities non-increasing and arrival order among equals |
| VlinkList.RemoveStable | src/xt_vlink.c:187-196 | so does removing |
| VlinkList.RemoveAllStable | src/xt_vlink.c:122-130 | so does cutting off several |
| VlinkList.StableUnique | src/xt_vlink.c:122-130 | there is only one such order |
| Vlink.Subsys.AddCallback | src/xt_vlink.c:115-131 | the linked list is the old one with the callback before the first of lower priority; a callback listed already cuts off those of its priority behind it, or points to itself if there are none |
| Vlink.Subsys.RemoveCallback | src/xt_vlink.c:180-197 | the callback is out of the linked list, or -ENOENT and nothing changed |
| Vlink.Subsys.RemoveAll | src/xt_vlink.c:228-229 | the loop terminates with an empty list |
| VlinkList.StopsIff | src/xt_vlink.c:244-252 | an answer ends the notification if and only if its remainder by 4 is 3 or its third bit is set: of 0 to 4 exactly 3 and 4 |
| Vlink.Subsys.Invoke | src/xt_vlink.c:233-257 | calls exactly the prefix up to and including the first callback whose answer is 3 modulo 4 or has its third bit set, and returns the last answer |
| Vlink.Table.UnregisterBatch | src/xt_vlink.c:212-230 | clears the subsystem's slot if it holds it, and empties its list |

## Left out

- Allocation failures inside bind and inside a block's constructor: the roll-backs in the code do not restore the state.
- The contents of a block's subscriber chain; `others` only says whose chain it is.
- Taking a block without a factory out of the stack, which the vlink drivers do by themselves.
- What a block's own handler makes of an option, and the procfs listing of blocks.
- The tee block in the graph: its third port has no place in port symmetry. It is in the engine.
- Blocks whose decision depends on the packet's contents, in the sequential engine; in the machine every outcome of a block call is allowed.
- FblockStack.Stack.UnsubscribeFrom: the peer's chain is represented only by the result `found`.
- FblockUser.UserAdd: `others` stands for the freshly allocated chain.
- Engine.Engine.Traverse: packets are values here, so two references to one packet cannot be told apart; the machine gives each packet an identity.
- Engine.Engine.NetRx: the tee's read loop is one access here, so drop marks and clone ports left by repeated passes do not occur; `Seqlock` has the loop.
- Seqlock.NetrxSuccess: one reader and one writer at a time, with sequentially consistent memory.
- FblockSteps.AccessKeepsIff: packets do not come between the stores of one access, that is inside an event loop, an unregister or the exchange of lists and counts, where the code reads a count first and stores it afterwards.
- Interleavings of control commands with each other.
- FblockUser.UserRcv: the sender's capability and a message shorter than its header are checked before, and several messages in one buffer are served one after the other by the kernel.
- The timer's re-arming, statistics other than packets and block calls, module reference counts, netlink and printing to the log.
- Registering a vlink subsystem, and passing a null pointer where the code checks for one.
- The JIT hooks of the filter block, which are empty.
- `src/fb_eth.c`, `src/fb_ethvlink.c`, `src/fb_pflana.c`, `src/fb_counter.c`, `src/core.c`, `app/`, `usr/`, `sem/` and `microblaze/`: glue or repetitions that would only add easy members.
