# Proactive Directory Service: verified model

A Dafny model of the directory engine of the Proactive Directory Service: a mutable graph of named contexts and
entities with links, referrer lists and placeholders, and the code that walks, dumps, reloads, sweeps and publishes
changes from it. Beside the engine stand two small algorithms the repository carries along, base64 and getopt.

`dafny verify dfyconfig.toml` checks the whole project.

## How it is built

The engine's objects are classes. One class, `Directory.ContextBindable`, stands for ContextBindable, Context and
Entity, and `Directory.Domain` for the domain. Each method is proved against the change it makes to the value
`Domain.View()`, a `NameGraph.State`, and the laws of names, links, promotion and deletion are lemmas about those
states. A C++ pointer from one object to another is the target's object ID followed through the domain's object map;
a dangling pointer is an ID that the map does not have.

| modules | what they model |
|---|---|
| Paths, Spelling | `split_name`, the `strtok` loop, components of names |
| NameGraph, Iteration, Directory | objects, bindings, referrers, deletion |
| Resolution, ResolutionLaws, NamingLaws, FullNames, Lookups | walking, creating and promoting by name; naming laws; what a lookup and a creation do to the graph |
| Operations, Announcing, ReachableNames | the operations of the engine, one by one and over runs; the names that events tell; the naming laws over what clients reach |
| Linking, ReachableLinks | what linking, unbinding and deleting do to the graph, and under which names what has been linked is found |
| TreeTraverse, Unfolding, Elements, DomainWalk, Load, ReachableDump | walk, dump and reload |
| Decimals, Timestamps, Expiry | timestamps as strings and as numbers; when a context has expired |
| Sweep, SweepEnds, SweepSafety, CleaningThread, LinkFree, ReachableSweep | the sweep of expired contexts, on any graph and in any iteration orders |
| TransactionStone, Bucket, StoneBuilders, Proactive | storage stones, their builders and event channels |
| BindingList | the listing of a context's bindings |
| Base64, Base64Bits, Base64Letters | the encoder and the decoder, their bit operations, and the alphabet |
| Options, Getopt, CommandLines | what arguments mean, the scanner that permutes them, and the forms of a command line one by one |

The invariant `NameGraph.WF` says: every object but the root has an older parent, which is a context as long as it is
alive; a binding's target is alive and its tag the class of the target, never missing; a live context occurs among an
object's referrers once per binding of it, and once more if it is the parent; a real object has an attribute list; a
real object has been announced by one creation event and a placeholder by none; and the event has told the full name
of a context as it reads now, if its ancestors are alive. It survives every operation, the
deletions of a sweep included: a deleted context stays on the referrer lists of what it bound, and its children keep a
parent that is gone.

A large predicate in a contract is here and there written `P(...) == true`. That says nothing more than `P(...)`; it
makes the verifier take the predicate as one fact instead of checking each conjunct of its definition by itself.

## Where the code and its documentation part

- `agent/pds.h:223` promises that "/the/entity" from the context "/path/to" and "/path/to/the/entity" are the same
  object. Over the states that clients reach that holds for exactly the pairs that satisfy `Spelling.JoinsUp`
  (`ReachableNames.RelativeNamingIffJoinsUp`): for instance not for a relative name without a leading separator, nor for
  a head with a trailing one.
- Creating "/" returns the root whatever the initial context, while resolving "/" returns the initial context
  (`engine/Domain.cc:295-296`, `382-384`): `ResolutionLaws.CreatedNameResolves` gives the exact condition.
- What has been linked is found again under the same name exactly if the part before its last separator does not end in
  one: creating that part keeps a trailing separator in its last component and resolving drops it, so "/a//x" is linked
  in a context "a/" and looked for in "a". `ReachableLinks.LinkedIsFoundIff` and `LinkedContextIsFoundIff` say so for
  all names, with a run of operations for every name that fails.
- One trailing separator stays in the last component; `engine/Domain.cc:116-129` speaks of the split alone.
- `get_full_name` yields a name that does not resolve where an ancestor kept a trailing separator:
  `FullNames.FullNameResolvesIffWellNamed` says exactly when, and `ReachableNames.IllNamedIsReachable` gives a run of two
  creations.
- A dump is reloaded as it was exactly if no name on a path is empty or holds a separator, except the last one at its
  end: `Load.DumpLoadRoundTrip`. A context "b" in one created as "/a/" is a domain that is not:
  `ReachableDump.UnspelledIsReachable`.
- The sweep compares timestamps as strings. `Timestamps.ComparesAsNumbersIff` says exactly when that agrees with their
  numbers, and `Timestamps.DigitCountMatters` gives an input on either side.
- The creation and the deletion event of a context tell its full name, which is read along its ancestors. A context keeps
  its parent when that is deleted, so creating, promoting or deleting below a deleted context follows a freed pointer
  (`ReachableNames.OrphanIsReachable`). `Announcing.AnnounceableIffNameable` and `ReadableIffNameable` say exactly for which
  calls, and an operation is enabled for the others only.
- Three things can go wrong with a sweep, and clients can bring about each of them. For each there is the exact condition
  (the third, on every graph without the cycles of the first) and a run of operations that violates it:
  it never ends on a cycle of unexpired contexts (`SweepEnds.EndsIffNoLiveCycle`, `ReachableSweep.RootInItself`);
  it follows a null pointer for a heartbeat entity without character data (`SweepSafety.NoNullIffHasData`,
  `ReachableSweep.HeartbeatWithoutData`);
  a deletion goes wrong (`SweepSafety.SafeIffSweepable`): a context that has expired and is bound under two names in one
  context is deleted twice (`ReachableSweep.LinkedTwice`), its first parent is still on its list after its binding there
  has gone and has been freed (`MovedOutOfAnExpiredContext`), or an ancestor that its full name leads through has been
  freed (`BelowAnExpiredContext`). All but the missing data takes linking a context: `LinkFree.LinkFreeIsSweepable`.
- A second IS_IT_DONE before SEND_MISSING doubles the count, so the reply is padded with memory that was never written
  (`TransactionStone.QueriesThenRequest`); a heads-up between the two for an ID neither announced nor delivered before
  makes the buffer too small (`TransactionStone.NewsBetween`, `AnnouncedBetween`).
- The stone never discards a PRINT relay, nor one with a code it does not know, and reads the first relay of its queue
  whichever arrives: after one of them it answers nothing any more (`TransactionStone.SilencedIffStrayRelay`).
- The builder of the transaction stone sets one character aside for the size and writes a second terminator behind the
  first, so its writes stay in the buffer only for the sizes 0 to 9; its length check is silent exactly for numerals of two
  characters, none of which is safe: `StoneBuilders.BuildTransactionSpec`.
- The base64 encoder writes no NUL for an empty string.

## Model

| member | source | states |
|---|---|---|
| `Paths.ScanForSplit` | engine/Domain.cc:112-147 | Scans backwards from the last character but one and stops at the rightmost separator there, or at the first character: the returned index is the only one with that property. |
| `Paths.SplitPosUnique` | engine/Domain.cc:112-147 | The split position is determined by what it is (a separator or the start, nothing but other characters behind it), so any scan that finds such a place finds this one. |
| `Paths.SplitNameInto` | engine/Domain.cc:150-188 | Cuts a name into a head and a last component exactly as the split position says, with NULL for a missing part. |
| `Paths.SplitNameMeaning` | engine/Domain.cc:150-188 | Head, separator and tail put together are the name again; only "/" has no tail; the tail is a last component (no separator except a trailing one); a head is never empty. |
| `Paths.SplitNameOfJoin` | engine/Domain.cc:150-188 | Round trip: a head and a last component joined by a separator split back into the two. |
| `Paths.NextToken` | engine/Domain.cc:237-267 | One strtok call: skips separators, returns the run up to the next one, and what remains tokenizes to the rest of the tokens. |
| `Paths.TokensOfConcat` | engine/Domain.cc:237-267 | Tokens of a concatenation are the tokens of the parts whenever nothing is glued together at the seam. |
| `Paths.TokensOfDoubled` | engine/Domain.cc:237-267 | Doubling a separator inside the tokenized part changes no token. |
| `Spelling.DoubledSeparator` | engine/Domain.cc:112-189 | Doubling a separator leaves the components of a name alone exactly when it does not begin the last component: an if-and-only-if over all names. |
| `Spelling.TrailingSeparators` | engine/Domain.cc:116-129 | A second trailing separator changes the components exactly when the name did not end in one already; a trailing separator stays in the last component. |
| `Spelling.JoinsUpIffComponentsJoin` | agent/pds.h:223 | Exact condition, checkable on the two strings, for the components of head+tail to be those of head followed by those of tail. |
| `Spelling.ComponentsOfPath` | engine/Domain.cc:237-267 | A path from the root, written with a separator before each name, has exactly these names for components. |
| `NamingLaws.ResolveByComponents` | engine/Domain.cc:358-405 | Resolving a name depends on nothing but its components: it is a walk of all but the last and a lookup of the last. |
| `NamingLaws.SameEverywhereIffSameComponents` | engine/Domain.cc:203-277 | Two names resolve alike in every well-formed domain from every initial context, the promotions included, if and only if they have the same components. |
| `NamingLaws.RelativeAgreesIffComponentsJoin` | agent/pds.h:223 | Absolute and relative naming agree in every domain and from every context the head resolves to, the state left behind included, if and only if the components join; with JoinsUpIffComponentsJoin this is the exact extent of the promise of the interface. |
| `NamingLaws.RelativeCounterexample` | agent/pds.h:223 | For every head and tail whose components do not join, two creations in a new domain lead to a state in which relative and absolute naming differ. |
| `ReachableNames.SameInReachableIffSameComponents` | engine/Domain.cc:203-277 | Two names resolve alike in every state that a run of operations on a new domain reaches, from every initial context, if and only if they have the same components. |
| `ReachableNames.RelativeNamingIffJoinsUp` | agent/pds.h:223 | The promise of the interface, exactly: relative and absolute naming agree in every reachable state and from every initial context if and only if the two strings join up; where they do not, a run of operations shows it. |
| `ReachableNames.WitnessIsReachable` | engine/Domain.cc:281-355 | The counterexample states of both laws are come to by creations that a client may ask for. |
| `ReachableNames.IllNamedIsReachable` | engine/ContextBindable.cc:196-232 | A run of operations comes to a real entity with standing bindings whose full name does not resolve to it. |
| `ReachableNames.TrailingIsReachable` | engine/Domain.cc:281-355 | Two creations come to a context that kept a trailing separator in its name, with an object of either class in it. |
| `ReachableNames.OrphanIsReachable` | engine/Context.cc:246-256 | A run of operations comes to a real context whose parent has been deleted: a creation in it, which no entity is in the way of, follows the freed parent for the name in its event. |
| `NamingLaws.ResolveInStages` | engine/Domain.cc:358-405 | Resolving a head to a context and then a tail from it is one resolution of the joined components. |
| `NamingLaws.PathIsDetermined` | engine/Domain.cc:281-355 | Where every context is bound only by its parent under its own name, two paths to the same context are the same path. |
| `NamingLaws.CreationKeepsOwnNames` | engine/Domain.cc:281-355 | Creation by name binds every new object under its own name in its parent. |
| `NameGraph.ConstructKeepsWF` | engine/ContextBindable.cc:61-77 | A new object counts its parent as a referrer before any binding; balance, tags, parent order and announcements stay right. |
| `NameGraph.BindKeepsBalanced` | engine/Context.cc:105-123 | A binding adds one referrer to its target exactly if the name was free. |
| `NameGraph.BindKeepsWF` | engine/Context.cc:105-123 | Binding a live object under its class tag keeps the invariant. |
| `NameGraph.ReferrerIsFound` | engine/ContextBindable.cc:54-58 | Whenever a context binds an object it is among that object's referrers, so the find in remove_referrer never comes to the end of the list. |
| `NameGraph.RemoveFirstCounts` | engine/ContextBindable.cc:54-58 | find and erase takes out exactly one occurrence. |
| `NameGraph.UnbindKeepsBalanced` | engine/Context.cc:154-170 | Unbinding by name removes one binding and one occurrence in the referrer list, and so keeps the two in balance. |
| `NameGraph.UnbindKeepsWF` | engine/Context.cc:154-170 | Unbinding by name keeps the invariant. |
| `NameGraph.KillBindingsKeepsBalanced` | engine/Context.cc:67-85 | Dropping all bindings of a context takes it out of each target's referrers once per binding, the parent entry aside. |
| `NameGraph.KillBindingsKeepsWF` | engine/Context.cc:67-85 | Dropping all bindings of a context keeps the invariant. |
| `NameGraph.MakeRealKeepsWF` | engine/ContextBindable.cc:99-106 | Promotion of a placeholder gives it an attribute list and one creation event, which tells the full name of a context, and keeps the invariant. |
| `NameGraph.SetCharDataKeepsWF` | engine/Entity.cc:90-107 | Replacing an entity's character data keeps the invariant. |
| `NameGraph.UnbindsOneMore` | engine/ContextBindable.cc:84-95 | Counting argument of the destructor: one unbind call on a referrer removes one binding of the object there, if any is left, so the calls still to come suffice for the bindings still there. |
| `NameGraph.AllUnbound` | engine/ContextBindable.cc:84-95 | When the referrer list is used up no context binds the object under any alias, and nothing else has changed. |
| `NameGraph.RemovableIffErasable` | engine/ContextBindable.cc:84-95 | For an object other than the root of a well-formed state: its referrers are alive and none is the object itself if and only if, beyond that, every context that binds it is listed at least as often as it does. The balance supplies the destructor calls. |
| `NameGraph.RemoveKeepsBalanced` | engine/Domain.cc:523-541 | Deleting any object leaves the referrer balance among the others exact. |
| `NameGraph.RemoveKeepsWF` | engine/Domain.cc:523-541 | Deleting any object but the root keeps the invariant, also a context that binds something or is a parent. |
| `NameGraph.WFIsCovered` | engine/Context.cc:67-85 | Every context of a well-formed state can drop all its bindings: each target is alive and lists the context once per binding, so no find in a referrer list comes to the end. |
| `Directory.Find` | engine/ContextBindable.cc:54-58 | The search stops at the first occurrence, which is the one that erasing removes. |
| `Directory.ContextBindable.constructor` | engine/ContextBindable.cc:61-77 | Registers the object as a placeholder without attributes and pushes its parent on the referrer list. |
| `Directory.ContextBindable.AddReferrer` | engine/ContextBindable.cc:47-51 | Appends one referrer and changes nothing else in the domain. |
| `Directory.ContextBindable.RemoveReferrer` | engine/ContextBindable.cc:54-58 | Erases the first occurrence of a referrer and changes nothing else in the domain. |
| `Directory.ContextBindable.MakeReal` | engine/ContextBindable.cc:99-106 | Clears the placeholder flag, creates the attribute list if there is none, sends one creation event; that of a context tells its full name, for which its ancestors must be alive. |
| `Directory.ContextBindable.NameToTell` | engine/Context.cc:246-269 | An event about a context tells its full name, read along live ancestors; one about an entity tells none. |
| `Directory.ContextBindable.Lookup` | engine/Context.cc:126-134 | The binding of a name, or the null pair. |
| `Directory.ContextBindable.Bind` | engine/Context.cc:105-123 | Inserts only where the name is free; then adds the referrer and sends the bind event with the full name if one was given; tells which happened. |
| `Directory.ContextBindable.Unbind` | engine/Context.cc:154-170 | Removes the binding of a name and one occurrence of this context from the target's referrers, or does nothing. |
| `Directory.ContextBindable.UnbindPair` | engine/Context.cc:181-210 | Finds some binding that matches the pair (the target alone for a pair without a tag) and erases that one and no other, telling the target or not as asked; without a match nothing changes. |
| `Directory.ContextBindable.ReleaseAll` | engine/Context.cc:67-85 | In any iteration order, every bound object loses this context from its referrers once per binding. |
| `Directory.ContextBindable.KillBindings` | engine/Context.cc:67-85 | Releases every bound object and empties the name map. |
| `Directory.ContextBindable.UnbindEverywhere` | engine/ContextBindable.cc:84-95 | One unbind call per entry of the referrer list leaves no binding of this object in any context and every other binding as it was. |
| `Directory.ContextBindable.Destroy` | engine/ContextBindable.cc:79-97 | After the destructor the object and all its bindings are gone and everything else is unchanged. |
| `Directory.ContextBindable.GetFullName` | engine/ContextBindable.cc:196-232 | For every object whose ancestors are alive, in any domain, cyclic links and dead objects elsewhere notwithstanding, terminates and returns the names along the parent chain. |
| `Directory.ContextBindable.LevelCount` | engine/Context.cc:88-101 | In any iteration order, counts the bindings of a class whose object is real. |
| `Directory.ContextBindable.SetData` | engine/Entity.cc:90-107 | Replaces the character data of this entity and nothing else. |
| `Directory.Domain.constructor` | engine/Domain.cc:50-83 | A domain with a root context that is real and announced. |
| `Directory.Domain.WalkStep` | engine/Domain.cc:239-264 | One round of the token loop: lookup, or creation of a context, or NULL for an entity or a missing name; then promotion unless placeholders are wanted. Asks that a context it makes real has live ancestors. |
| `Directory.Domain.WalkPath` | engine/Domain.cc:237-267 | The strtok loop computes the recursive walk over the tokens. |
| `Directory.Domain.GetContextOfName` | engine/Domain.cc:203-277 | Context of the last component by walking from the initial context or the root, creating and promoting as the flags say. |
| `Directory.Domain.ResolveName` | engine/Domain.cc:358-405 | Resolution with its side effect: the placeholders on the way are promoted, a placeholder at the end is not returned. |
| `Directory.Domain.ResolveOrCreateName` | engine/Domain.cc:281-355 | Creation by name computes its specification for every name that may be created, "/" being the root whatever the initial context. |
| `Directory.Domain.LookupOrCreate` | engine/Domain.cc:319-346 | The last component: found, or created and bound with the full name in the event; promoted unless a placeholder is wanted. |
| `Directory.Domain.BindContextAs` | engine/Domain.cc:191-201 | Binds a context under a full name whose context is created on the way; the status tells whether that is a context. |
| `Directory.Domain.BindEntityAs` | engine/Domain.cc:544-579 | Finds the entity by name or takes the one given, creates the context of the new name, binds, and sends the bind event; -1 without an entity. |
| `Directory.Domain.RemoveBindingOf` | engine/Domain.cc:581-608 | Unbinds a name and sends the unbind event of the class that was bound; -1 if there is none. |
| `Directory.Domain.RemoveObject` | engine/Domain.cc:523-541 | Reads the full name of a context along its live ancestors, sends the deletion event with it, deletes the object and every binding of it. |
| `Lookups.LookupPromotes` | engine/Domain.cc:237-267 | Looking along a path finds what the graph binds there. It makes exactly the placeholders on the way real, changes nothing else about any object, and sends nothing but their creation events with their full names. |
| `Lookups.ResolveFollows` | engine/Domain.cc:358-405 | A name resolves if and only if its components but the last lead to a context that binds the last one to an object that is real, or that the lookup has just made real on the way; that object is the result, and the promotions on the way are all that resolving does. |
| `Lookups.CreationAddsOnly` | engine/Domain.cc:281-355 | A creation keeps every object, binding, referrer and data that there was: what was there may become real, unless placeholders are asked for, and bind new objects. |
| `Lookups.WalkMakesPath` | engine/Domain.cc:243-264 | A creating walk that arrives has made its path: every component that was not bound is bound to a new context with its parent twice on the referrer list, a placeholder exactly if that was asked for, and with a bind event of that name. |
| `Lookups.CreationMakes` | engine/Domain.cc:281-355 | A creation makes the path of all components but the last, starting where the graph leads so far, and binds the last one in the context that they lead to: to a new object of the class asked for, announced in the bind event under the full name, if it was free there, and else it returns what it is bound to. |
| `Linking.UnderIsLinked` | engine/Domain.cc:191-201 | A link first creates the head of the name like any context. If that is a context in which the last component is free, exactly one binding, one referrer of what it binds and one bind event are added to that; if it is taken nothing is; if it is an entity the status is 0 and nothing is bound. |
| `Linking.ContextIsLinked` | engine/Domain.cc:191-201 | The same of linking a context under any name with a head, from the root. |
| `Linking.EntityIsLinked` | engine/Domain.cc:557-579 | The same of linking an entity, from any initial context: the status is 1, and the log ends with the bind event of the entity whether the name was free or taken. |
| `Linking.GivenEntityIsLinked` | engine/Domain.cc:544-556 | By pointer: a null pointer gives -1 and does nothing; an entity is linked as it is. |
| `Linking.NamedEntityIsLinked` | engine/Domain.cc:544-556 | By the name of the entity: -1 if and only if that name resolves to no entity, and then the lookup is all that happens; else what it resolves to is linked in the state that the lookup leaves. |
| `Linking.LinkIsConservative` | engine/Domain.cc:191-201 | Every name that resolved before a link, from whichever context, resolves to the same object after it. |
| `Linking.LinkedNameResolves` | engine/Domain.cc:557-579 | After a link under a name whose head does not end in a separator, the head leads to a context that binds the last component to what it bound before, or else to what has been linked; the name resolves to that if it is real, and resolving changes nothing more. |
| `Linking.EntityIsFound` | engine/Domain.cc:557-579 | A real entity that is linked where the name was free is what the name resolves to then. |
| `Linking.ContextIsFound` | engine/Domain.cc:191-201 | The same of a real context, if the head leads to no entity. |
| `ReachableLinks.LinkedIsFoundIff` | engine/Domain.cc:557-579 | Exactly: in every reachable state and from every initial context a real entity is found under the free name it has been linked under if and only if what stands before the last separator of the name does not end in one; where it does, a run of operations shows it. |
| `ReachableLinks.LinkedContextIsFoundIff` | engine/Domain.cc:191-201 | The same, exactly, of contexts, which are linked from the root only: there "/" before the last separator does no harm. |
| `Linking.UnboundByName` | engine/Domain.cc:581-608 | The status is 1 if and only if the last component is bound where the others lead. Then exactly that binding and one occurrence in the referrer list go, and the event is the unbind event of an entity, or that of a context with the name asked for, by the class of what was bound. Otherwise the status is -1 and only what a lookup does has happened. |
| `Linking.UnboundNameIsGone` | engine/Domain.cc:581-608 | A name that has been unbound resolves to nothing, also where its own path led through that binding. |
| `Linking.DeletedIsGone` | engine/Domain.cc:523-541 | A deletion takes out the object and all its bindings, and nothing else of any other object; the event of a context tells its full name, that of an entity none. |
| `Linking.KilledBindsNothing` | engine/Context.cc:67-85 | A context whose bindings have been killed binds nothing and is a referrer of its children only, once each; all other bindings and referrer counts are what they were, and nothing is sent. |
| `Resolution.StepKeepsWF` | engine/Domain.cc:239-264 | One round of the walk, with creation and promotion, keeps the invariant. |
| `Resolution.WalkFacts` | engine/Domain.cc:203-277 | A whole walk keeps the invariant, loses no object, binding or promotion, and ends at a context or at NULL. |
| `Resolution.PromoteFacts` | engine/Domain.cc:260-264 | Promotion on the way changes no name map and nobody's identity. |
| `ResolutionLaws.ResolveFacts` | engine/Domain.cc:358-405 | Resolving keeps the invariant and only adds to the state. |
| `ResolutionLaws.ResolveOrCreateFacts` | engine/Domain.cc:281-355 | Creating keeps the invariant and only adds to the state; the result is live, and real unless a placeholder was wanted. |
| `ResolutionLaws.WalkArrivesIffPassable` | engine/Domain.cc:243-256 | A creating walk arrives exactly when no component before the last is bound to an entity. |
| `ResolutionLaws.ResolveSurvivesGrowth` | engine/Domain.cc:358-405 | A name that resolved still resolves to the same object in every state that has lost nothing. |
| `ResolutionLaws.CreationIsConservative` | engine/Domain.cc:281-355 | Creating any name, from any context, as a placeholder or not: every name that resolved before still resolves to the same object. |
| `ResolutionLaws.CreatedNameResolves` | engine/Domain.cc:295-296 | After a creation that is not of a placeholder the name resolves to the object returned and resolving changes nothing, if and only if the name is not "/" or the initial context is the root. |
| `ResolutionLaws.RepeatedCreationDoesNothing` | engine/Domain.cc:281-355 | Repeating a creation returns the same object and changes nothing, whatever class or placeholder flag the second call has. |
| `FullNames.ComponentsOfFullName` | engine/ContextBindable.cc:196-232 | Where the ancestors are alive the full name has the names along the parent chain for components if and only if the object is well-named (no empty name, no ancestor that keeps a trailing separator). |
| `FullNames.FullNameResolves` | engine/ContextBindable.cc:196-232 | A real, well-named object whose creation bindings stand is found again under its full name, links and cycles notwithstanding. |
| `FullNames.FullNameResolvesIffWellNamed` | engine/ContextBindable.cc:196-232 | In a domain without links the full name of a real object with standing bindings resolves to it if and only if it is well-named. |
| `Operations.CreatableIffCreated` | engine/Domain.cc:304-308 | Creation returns an object exactly where it may be asked for: no component before the last is bound to an entity. |
| `Operations.ApplyKeepsWF` | engine/Domain.cc:191-608 | Every operation of the engine (resolve, create, link a context or an entity, unbind, kill bindings, set data, delete) keeps the invariant. Enabled is what follows no NULL and no freed pointer: live referrers for a deletion, live ancestors for every context that becomes real or is deleted. |
| `Operations.RemoveBindingKeepsWF` | engine/Domain.cc:581-608 | Unbinding by path, promotions on the way included, keeps the invariant. |
| `Operations.ApplyEvolves` | engine/ContextBindable.cc:61-77 | No operation changes an object's class, name or parent, undoes a promotion or takes an event back; IDs are never used again. |
| `Operations.ReachableIsWF` | engine/Domain.cc:50-83 | Reference balance, tags that match classes, attributes of real objects and announcements hold in every state that any run of operations reaches from a new domain, deletions of contexts with children included. |
| `Operations.RunKeepsWF` | engine/Domain.cc:50-83 | The same from any well-formed state, with identities kept over the whole run. |
| `Operations.PromotedOnce` | engine/ContextBindable.cc:99-106 | Over any run a placeholder flag goes only from true to false, and exactly one creation event is added for an object that becomes real and none for any other. |
| `Announcing.TellableIffNameable` | engine/Context.cc:246-256 | Exactly: for a walk along a path, with creation and promotion as the flags say, the condition on the graph before it holds if and only if every context that becomes real has live ancestors, so that its creation event can be named. |
| `Announcing.AnnounceableIffNameable` | engine/Context.cc:246-256 | The same, exactly, for a creation by name, the last component included. |
| `Announcing.ReadableIffNameable` | engine/Context.cc:246-256 | The same, exactly, for the promotions on the way of a lookup. |
| `Announcing.AllAliveIsAnnounceable` | engine/Context.cc:246-256 | Where every object has live ancestors, every creation by name can be announced. |
| `Announcing.DeletedUnderItsName` | engine/Context.cc:260-270 | Over any run: a real object that is deleted has exactly one creation event, and the deletion event tells the name that it told. |
| `Announcing.NameIsForGood` | engine/Context.cc:246-270 | Over any run: whenever the name of a real object can be read, it is the one name in its only creation event, whatever has been linked, unbound and deleted meanwhile. |
| `Iteration.HashOrder` | engine/Context.cc:76-82 | An iteration yields every key of a name map once; nothing is known of the order. |
| `TreeTraverse.VisitEntities` | engine/TreeTraverse.cc:103-117 | A start and an end call for every real entity, in iteration order. |
| `TreeTraverse.PushContexts` | engine/TreeTraverse.cc:80-96 | Pushes an INITIAL entry with its path for every real context binding, in iteration order. |
| `TreeTraverse.PendingStart` | engine/TreeTraverse.cc:73-96 | What a visit leaves on the stack stands for exactly the calls of its unfolding that are still to come. |
| `TreeTraverse.VisitTop` | engine/TreeTraverse.cc:63-97 | One round makes exactly the first calls that the stack stood for and leaves the others pending. |
| `TreeTraverse.Traverse` | engine/TreeTraverse.cc:54-100 | Where the contexts that the root reaches can be ranked, the loop terminates, and its calls are those of the recursive unfolding, for any iteration orders. |
| `TreeTraverse.NoCycleIffBounded` | engine/TreeTraverse.cc:54-100 | The paths that the walk has to visit are of bounded length if and only if the root reaches no cycle; cycles elsewhere do not matter. |
| `DomainWalk.TraverseDomain` | engine/TreeTraverse.cc:54-100 | The same for a domain in any well-formed state whose root reaches no cycle. |
| `Unfolding.NodeAtPath` | engine/TreeTraverse.cc:84-94 | The unfolding has a node at a path exactly if real bindings lead along it; the node is that context and carries that path as its name. |
| `Unfolding.UnfoldDistinct` | engine/TreeTraverse.cc:80-96 | No node has two children of the same name. |
| `Unfolding.TrailsAreNodes` | engine/TreeTraverse.cc:54-100 | The trails of a tree are exactly the paths at which it has a node. |
| `Unfolding.StartsOfEvents` | engine/TreeTraverse.cc:72-73 | The start calls of a walk are the nodes of the unfolding. |
| `Unfolding.VisitedOncePerPath` | engine/TreeTraverse.cc:54-100 | Where the root reaches no cycle, every real context is visited once for every path of real bindings to it, and reported under that path; the list of those paths is complete and has no repeats. |
| `Unfolding.EntitiesAreBound` | engine/TreeTraverse.cc:103-117 | The entities that a visit lists are those bound in the context whose object is real, one for each such binding, in the order of the iteration. |
| `Unfolding.EntitiesOncePerBinding` | engine/TreeTraverse.cc:54-117 | Where the root reaches no cycle, every real entity is started once for every path of real bindings to a context and every binding of it there, and reported with that context and that path, context by context in the order of their visits. |
| `Elements.NodeIsRead` | engine/XmlDumpVisitor.cc:68-81 | The calls for a context nest: read back as opening and closing tags they give its element, whatever follows. |
| `Elements.WalkIsRead` | engine/XmlDumpVisitor.cc:68-81 | The calls of a whole walk are perfectly nested and read back as one element, that of the unfolding. |
| `Load.OrderOfElement` | engine/load.cc:200-222 | The loader meets the elements of a dump in the order of the nodes they came from, entity elements creating nothing. |
| `Load.ProcessDomain` | engine/load.cc:200-222 | The stack loop over elements creates one context per context element, the last sibling first, in any domain where no name of the load has an entity before its last component or leads below a deleted context. |
| `Load.DoContextLoad` | engine/load.cc:191-198 | Loads one element by creating the context of its full name, wherever the source follows neither NULL nor a freed parent. |
| `Load.TreeIsLoadable` | engine/load.cc:191-198 | A tree of real contexts, such as a new domain, can be loaded with any names at all. |
| `Load.LoadOne` | engine/load.cc:191-198 | In a tree of real contexts, loading any name adds exactly the missing contexts along its components and leaves a tree. |
| `Load.LoadMany` | engine/load.cc:200-222 | After loading any names there is a context for each, and the domain is still a tree of real contexts. |
| `Load.LoadAdds` | engine/load.cc:200-222 | Every context that loading adds lies on the path of a loaded name. |
| `Load.ComponentsOfPathString` | engine/TreeTraverse.cc:86-90 | The path string that the walk reports has the path for components, so that the loader cuts it where the walk joined it, if and only if the path is spelled: no name on it holds a separator or is empty, but that the last may end in one. |
| `Load.LoadedPaths` | engine/load.cc:200-222 | Loading the dump of any domain whose root reaches no cycle into a new domain: the copy has exactly the prefixes of the components of the reported path strings, and different paths lead to different contexts. |
| `Load.DumpLoadRoundTrip` | engine/load.cc:200-222 | Dump and reload, for any iteration orders and any domain whose root reaches no cycle: a path leads to a real context of the copy exactly if it did in the original, if and only if every real path of the original is spelled. |
| `Load.DumpAndLoad` | engine/TreeTraverse.cc:54-100 | The round trip as a program: walk, read back, load; the copy has the real paths of the original if and only if they are all spelled. |
| `ReachableDump.UnspelledIsReachable` | engine/load.cc:200-222 | A run of two creations comes to a well-formed domain without cycles that is not spelled; whatever the iteration orders, the copy that a load makes of its dump does not have its paths. |
| `Expiry.IsExpired` | engine/CleaningThread.cc:33-54 | In any iteration order the search finds the real heartbeat entity if there is one and answers by comparing its data with the timeout string. |
| `Expiry.ExpiredIffOldBeat` | engine/CleaningThread.cc:33-54 | A context has expired if and only if it binds, as "gs_heartbeat" and as an entity, a real object with data that is not greater than the timeout by strncmp over its own length; no other binding matters. |
| `Timestamps.FirstDifferenceDecides` | engine/CleaningThread.cc:45 | strncmp on any strings: the first difference within the bound decides, the end of a string counting as a NUL. |
| `Timestamps.NoDifference` | engine/CleaningThread.cc:45 | Where a heartbeat is a prefix of the timeout the comparison gives 0, and the context has expired. |
| `Timestamps.ComparesAsNumbers` | engine/CleaningThread.cc:45 | strncmp on timestamps of equally many digits agrees with the comparison of the numbers. |
| `Timestamps.ComparesAsNumbersIff` | engine/CleaningThread.cc:45 | For any two numbers in decimal notation the strings compare as the numbers do if and only if the digits that both have decide: equally many digits, or the longer one cut to the shorter compares the same way. |
| `Timestamps.DigitCountMatters` | engine/CleaningThread.cc:45 | An input for each side: a heartbeat at 9 is not expired at 10, one at 1 is at 20. |
| `Expiry.ExpiresWithAgeIff` | engine/CleaningThread.cc:33-69 | A context whose heartbeat holds a decimal number expires by its age if and only if the timeout lies before the epoch or the digits that its timestamp and the timeout's share decide. |
| `Decimals.DecimalIsValue` | engine/CleaningThread.cc:65 | Printing a number in decimal and reading it back gives the number. |
| `Decimals.DecimalLength` | engine/storage_stone.c:193-203 | The printed length of a number is the count of its digits by repeated division. |
| `CleaningThread.Scan` | engine/CleaningThread.cc:117-140 | The loop over a context's bindings sorts its real contexts into those to be removed and those to be checked later, once each, in any iteration order. |
| `CleaningThread.RemoveContexts` | engine/CleaningThread.cc:141-143 | Removing the expired children erases them and their bindings and nothing else. |
| `CleaningThread.NextIsDeletable` | engine/CleaningThread.cc:141-143 | Where a removal is no trouble, it meets live ancestors for the name in its event and live referrers for its destructor, in the domain as the removals before it have left it. |
| `CleaningThread.SweepRound` | engine/CleaningThread.cc:117-145 | One round of the loop removes from the domain what one round of the abstract sweep removes, and leaves the queue that it leaves; on any graph, contexts linked more than once included. |
| `Sweep.SweepOnLevel` | engine/CleaningThread.cc:94-147 | On any graph and in any iteration orders a sweep goes breadth first: what is queued lies on two neighbouring levels, and everything above them has been gone through. |
| `SweepEnds.EndsIffNoLiveCycle` | engine/CleaningThread.cc:94-147 | On any graph the queue runs empty if and only if no path past unexpired contexts comes back to where it was, whatever the order of the rounds. |
| `SweepEnds.RemovedIsDoomed` | engine/CleaningThread.cc:117-143 | At every moment of a sweep of any graph all that has been removed is real, expired and bound where a path past no other expired context leads. |
| `SweepEnds.SweepRemovesDoomed` | engine/CleaningThread.cc:94-147 | On any graph, whatever the iteration orders, a sweep that has come to its end has removed exactly the expired contexts to which a path past no other expired context leads. |
| `SweepSafety.SweepableIsSafe` | engine/CleaningThread.cc:141-143 | On a sweepable graph no deletion of a sweep, in any iteration orders, deletes twice, deletes the root or follows a referrer or an ancestor that is not there. |
| `SweepSafety.SafeIffSweepable` | engine/CleaningThread.cc:141-143 | Where no live path runs in a circle, no sweep goes wrong in any iteration orders if and only if the root is not doomed, an expired context bound under two names in one context is met on a level above, every referrer and every ancestor of a doomed context is alive, and on whatever level such a one is doomed too, the context is doomed on one above it. |
| `SweepSafety.NoNullIffHasData` | engine/CleaningThread.cc:45 | On any graph no sweep follows a null pointer for a heartbeat without character data if and only if every context bound on a live path that has a heartbeat has data in it. |
| `SweepSafety.QuietIsSweepable` | engine/CleaningThread.cc:94-147 | Where each context with a heartbeat is bound once by each that binds it, and its referrers and ancestors are alive and without heartbeat, but for the holder, the graph is sweepable at any time; contexts bound away from their parents are no obstacle. |
| `SweepSafety.HomeIsSweepable` | engine/CleaningThread.cc:94-147 | Where every context that a real path leads to is bound in its parent under its own name, and nobody else refers to it, a sweep at any time ends and does not go wrong, however deep contexts with heartbeats lie in one another. |
| `LinkFree.ApplyKeepsUnlinked` | engine/Domain.cc:191-608 | Every operation but linking a context leaves all contexts bound in the ones they were created in, under their own names, with nobody else on their referrer lists. |
| `LinkFree.LinkFreeIsSweepable` | engine/CleaningThread.cc:94-147 | After every run of operations on a new domain in which no context is linked, a sweep at any time ends and does not go wrong. |
| `LinkFree.SweptIsCleanable` | engine/CleaningThread.cc:94-147 | Once such a domain has been swept it can be swept at any later time. |
| `ReachableSweep.MovedOutOfAnExpiredContext` | engine/CleaningThread.cc:141-143 | A run of operations comes to a domain in which a sweep follows a freed referrer: a context moved out of its parent with a link and an unbinding, both expired. All other conditions hold. |
| `ReachableSweep.BelowAnExpiredContext` | engine/Context.cc:260-265 | A run of operations comes to a domain in which all referrers stay and yet a sweep follows a freed pointer: the full name of an expired context, read for its deletion event, leads through a grandparent that the sweep has freed. |
| `ReachableSweep.LinkedTwice` | engine/CleaningThread.cc:141-143 | A run of operations comes to a domain in which a sweep deletes a context twice: it is bound under two names in the root and has expired. |
| `ReachableSweep.HeartbeatWithoutData` | server/pdsd_handlers.cc:319-370 | A run of operations comes to a domain in which a sweep at any time follows a null pointer: the heartbeat entity was created without character data, as a creation with integer or float data leaves it. |
| `ReachableSweep.RootInItself` | engine/CleaningThread.cc:94-147 | A run of operations comes to a domain whose sweep never ends, at any time: the root bound in itself. |
| `ReachableSweep.SweptIsReachable` | engine/CleaningThread.cc:141-143 | The deletions of a sweep that does not go wrong are operations like any other: the state after them is reachable, so every law over reachable states holds of swept domains. |
| `ReachableSweep.NamesAfterSweep` | engine/ContextBindable.cc:196-232 | After any sweep of a reachable domain that goes as Cleanup says, a real, well-named object whose creation bindings stand is found again under its full name, however many other contexts the sweep has deleted. |
| `ReachableSweep.OldBeatIsSwept` | engine/CleaningThread.cc:94-147 | A run of operations comes to a context with an entity "gs_heartbeat" that holds "5": every sweep at the timeout "9" removes that context and nothing else, and every sweep at "4" leaves the domain as it is. |
| `Sweep.SweptPaths` | engine/CleaningThread.cc:94-147 | On any graph whose root is not doomed: without the doomed contexts a path leads to a real context exactly if it did before and met no expired context. |
| `CleaningThread.Cleanup` | engine/CleaningThread.cc:94-147 | On any graph that is cleanable (ends, has its data, sweepable: each condition exact) the sweep terminates; the graph is the old one without exactly the doomed contexts and their bindings; no deletion went wrong; the real paths are those that met no expired context; the invariant holds; and at any later time there is no cycle and no data missing. |
| `TransactionStone.Stone.Receive` | engine/storage_stone.c:56-149 | One run of the program on any message whatever: it leaves its memory exactly for an ID equal to the table size and for a request with more outstanding than counted; otherwise the table, the count and port 0 are what the messages so far make them, the queue holds the first relay that the program does not discard at the head of its relays, and each query and request that is read is answered on its port. |
| `TransactionStone.Stone.OnRelay` | engine/storage_stone.c:99-149 | The program acts on the first relay of the queue, not on the one that has arrived; both are the same exactly as long as every relay was discarded. |
| `TransactionStone.Stone.OnHeadsUp` | engine/storage_stone.c:74-83 | An announcement marks an ID unless it has been delivered; what is not announced anew stays in the queue; an ID equal to the table size is written past the table. |
| `TransactionStone.Stone.OnSimple` | engine/storage_stone.c:84-98 | A data message marks its ID delivered and is forwarded on port 0, the first time and again; an ID equal to the table size is written past the table. |
| `TransactionStone.Stone.OnQuery` | engine/storage_stone.c:106-127 | IS_IT_DONE is answered by whether any announced ID is undelivered; it and PRINT add their number to the count, and PRINT stays in the queue. |
| `TransactionStone.Stone.OnRequest` | engine/storage_stone.c:129-147 | SEND_MISSING sends a list as long as the count, beginning with the outstanding IDs in ascending order, and clears the count; it overruns its buffer exactly if more IDs are outstanding than were counted. |
| `TransactionStone.Stone.FillStore` | engine/storage_stone.c:135-140 | The fill loop writes the outstanding IDs in ascending order and leaves the buffer exactly if there are more of them than it has room for. |
| `TransactionStone.TablesConverge` | engine/storage_stone.c:70-98 | Two stones of one size that have been told the same announcements and deliveries, in whatever order and however often, have the same table. |
| `TransactionStone.NewsIsASet` | engine/storage_stone.c:70-98 | Histories with the same messages, in whatever order and however often, are the same news. |
| `TransactionStone.DeliveredForGood` | engine/storage_stone.c:79-95 | A delivered mark is never lost, whatever messages follow. |
| `TransactionStone.FinishedIffAllDelivered` | engine/storage_stone.c:106-127 | Nothing is outstanding exactly when every announced ID below the size has been delivered. |
| `TransactionStone.AnswerTells` | engine/storage_stone.c:106-127 | When a 4 is read, exactly one message is added on port 1: a relay with 1 if and only if every announced ID below the size has been delivered, and with 0 if and only if some announced ID has not. |
| `TransactionStone.ReplyTells` | engine/storage_stone.c:129-147 | When a 3 is read, exactly one list is added on port 2; it begins with the announced and undelivered IDs below the size, ascending, each once. |
| `TransactionStone.NewestIsRead` | engine/storage_stone.c:99-105 | As long as every relay was a 3 or a 4, the code that is read is that of the message. |
| `TransactionStone.StrayIsRead` | engine/storage_stone.c:99-105 | From the first other relay on, its code is read in place of every later one. |
| `TransactionStone.CountIs` | engine/storage_stone.c:106-147 | The count grows by what is outstanding for a 4 and for a 2, is cleared by a 3, and stays for every other message. |
| `TransactionStone.ForwardedIs` | engine/storage_stone.c:84-98 | Every data message with an ID below the size is forwarded on port 0, each time it arrives, in order, and no other is. |
| `TransactionStone.ClearIffNothingCounted` | engine/storage_stone.c:106-147 | The count is clear if and only if since the last request nothing was outstanding whenever a query or PRINT was read. |
| `TransactionStone.SilencedIffStrayRelay` | engine/storage_stone.c:99-149 | Queries and requests are read as what they are if and only if every relay so far was a query or a request; after one PRINT, or one unknown code, no message ever makes the stone answer again. |
| `TransactionStone.QueriesThenRequest` | engine/storage_stone.c:106-147 | From a clear count and a queue without relays, any number k of queries and then the request: inside the buffer if and only if k > 0 or nothing is outstanding; the reply has k times as many entries as are outstanding, and is exactly the outstanding IDs if and only if k is 1 or there are none. |
| `TransactionStone.NewsBetween` | engine/storage_stone.c:70-147 | From a clear count, one query, any data and announcements, then the request: inside the buffer if and only if no more is outstanding than at the query, and the reply is exact if and only if as much is. |
| `TransactionStone.AnnouncedBetween` | engine/storage_stone.c:70-147 | An ID neither announced nor delivered before that is announced between the query and the request makes the program overrun its buffer. |
| `TransactionStone.OneQueryThenRequest` | engine/storage_stone.c:106-147 | One query since the count was cleared, then the request: it stays inside its buffer and the reply is exactly the outstanding IDs in ascending order. |
| `TransactionStone.RedeliveryFinishes` | engine/storage_stone.c:84-127 | Delivering everything outstanding makes the next answer FINISHED. |
| `TransactionStone.RecoveryFinishes` | engine/storage_stone.c:100-149 | Query, request, redelivery of the reply: then the next query is answered FINISHED and the count is clear for the next recovery. All this stays in memory if and only if no message of the redelivery has the table size for its ID. |
| `Bucket.OneMore` | engine/storage_stone.c:172-185 | One more event either completes a block or joins the rest. |
| `Bucket.BlockAt` | engine/storage_stone.c:172-185 | The k-th block is the k-th run of N consecutive events. |
| `Bucket.BucketStone.Receive` | engine/storage_stone.c:172-185 | Between arrivals fewer than N events wait, and floor(n/N) results have been submitted after n events. |
| `Bucket.ResultAt` | engine/storage_stone.c:172-185 | The k-th result is the function of the k-th consecutive block of N events. |
| `StoneBuilders.ExtraDigits` | engine/storage_stone.c:193-203 | The builder's loop counts the digits of the size beyond the first. |
| `StoneBuilders.BuildBucketSpec` | engine/storage_stone.c:187-227 | No program for a size that is not positive. Else the text names the size; the buffer of its top part is filled to the last byte, and the second buffer holds the whole with both terminators. |
| `StoneBuilders.BuildTransactionSpec` | engine/storage_stone.c:152-170 | The writes stay inside the buffer if and only if the size is from 0 to 9; the text with one terminator fits as long as the numeral has at most two characters; the length check is silent only for numerals of two characters, and then the second terminator is written past the end. |
| `Bucket.RunAverage` | tests/experiments/with_Storage/client_modify_stor.c:88-109 | The aggregation program submits the average of the queue under the ID of its first event. |
| `Bucket.WindowClient.OnEvent` | tests/experiments/wout_Storage/client_watch.c:76-125 | The handler logs the average of every five consecutive events and ends the process at the first window with an event not of size one. |
| `Bucket.BucketPublishesWhatTheClientLogs` | tests/experiments/wout_Storage/client_watch.c:76-125 | On the same stream the bucket of five with the averaging function publishes exactly what the client logs. |
| `Bucket.LoggedIsAverageOfFive` | tests/experiments/wout_Storage/client_watch.c:76-125 | The k-th number that the client logs is the sum of the numbers of events 5k to 5k+4, divided by five; it has logged one for every five events. |
| `Bucket.PublishedIsAverageOfFive` | tests/experiments/with_Storage/client_modify_stor.c:88-109 | The k-th event that a bucket of five publishes with the averaging function carries that number alone, under the ID of event 5k. |
| `Proactive.Proactive.SetUpStone` | engine/Proactive.cc:60-73 | Appends a stone, its split action, a source and a format, whether or not the type has a channel; what the channels mean changes only for a type without one. |
| `Proactive.Proactive.DetermineStoneSetUp` | engine/Proactive.cc:75-99 | The first index with the type, or -1. |
| `Proactive.FirstMatchStays` | engine/Proactive.cc:85-98 | Appending a channel never moves the first match of a type that has one. |
| `Proactive.Proactive.AddTarget` | engine/Proactive.cc:101-119 | Sets the channel up if need be and adds a new stone to the split at the first match. |
| `Proactive.Proactive.SetAggregateStone` | engine/Proactive.cc:121-159 | Puts a bucket of five before the first match and makes the source handle lead to it. |
| `Proactive.Proactive.SendEvent` | engine/Proactive.cc:161-171 | An event reaches every target registered for its type, or the bucket, and nobody else. |
| `Proactive.Proactive.SetUpEntityStones` | engine/Entity.cc:59-68 | Promotion of an entity sets four channels up, again or for the first time. |
| `Proactive.PromotionIsInvisible` | engine/Entity.cc:59-68 | That changes neither what any channel carries nor who is registered. |
| `Proactive.PromotionSetsUp` | engine/Entity.cc:59-68 | Promotion of an entity sets up channels for the event types 4 to 7 and for no other. |
| `Proactive.TargetedFits` | engine/Proactive.cc:101-119 | After a registration every registered stone is still a target of the first match of its type, once, and of no other. |
| `Proactive.ReroutedFits` | engine/Proactive.cc:121-159 | After a rerouting every source leads to its split, directly or through the bucket that holds the rest. |
| `Proactive.DeliveredFits` | engine/Proactive.cc:161-171 | After an event every registered stone has received exactly what its channel has carried since it registered. |
| `Proactive.ChannelAfter` | engine/Proactive.cc:161-171 | Between reroutings a channel changes by the events sent on it and by nothing else. |
| `Proactive.TargetsReceiveWhatIsSent` | engine/Proactive.cc:101-119 | Over any run of calls without aggregation of its type a target receives exactly the events of that type that are sent, in order. |
| `Proactive.RegistrationIsTheStart` | engine/Proactive.cc:101-119 | A target receives exactly what is sent after its registration, whatever else is set up, promoted, registered or sent meanwhile. |
| `Proactive.ReroutedTargetsReceiveResults` | engine/Proactive.cc:121-159 | From a rerouting on, old and new targets receive the results of the function on consecutive fives; what an earlier bucket still held is lost. |
| `Proactive.CarriesResultsOfFives` | engine/Proactive.cc:121-159 | What a rerouted channel has carried since is the function of events 0 to 4, of events 5 to 9, and so on, one for every five, behind what it had carried before. |
| `Base64.Codec.FillLetters` | engine/base64.c:31-40 | The table holds the 64 letters of the alphabet. |
| `Base64.Codec.FillWeights` | engine/base64.c:92-106 | The table gives every 7-bit character its value, zero for padding, or the mark of an invalid one; entry 255 is not set. |
| `Base64.DigitsAreFields` | engine/base64.c:57-60 | The bit fields that the encoder cuts out are the base-64 digits of the 24-bit number of three bytes (section 4 of RFC 4648). |
| `Base64.JoinDigits` | engine/base64.c:132-134 | The decoder's joins give the three bytes of the four digits back. |
| `Base64Bits.EncoderBits` | engine/base64.c:57-60 | On bytes as bit vectors: the shifts, masks and joins of the encoder give the base-64 digits. |
| `Base64Bits.DecoderBits` | engine/base64.c:132-134 | On weights as bit vectors: the shifts and joins of the decoder, cut to a byte, give the three joined bytes. |
| `Base64Bits.SkipBit` | engine/base64.c:124-128 | The test of the high bit of a table entry tells exactly the characters to be skipped. |
| `Base64.DecodedPadded` | engine/base64.c:62-69 | Where padding replaces a letter the decoder returns one or two bytes, and they are the input. |
| `Base64.Codec.Encode` | engine/base64.c:25-79 | Writes exactly 4*ceil(n/3) characters of the reference encoding and a NUL behind them, nothing further, and nothing at all for an empty string. |
| `Base64.Codec.ReadQuad` | engine/base64.c:112-131 | Collects the next four significant characters, skipping others, or meets the end. |
| `Base64.Codec.Decode` | engine/base64.c:86-144 | Writes the bytes that the significant characters stand for and a NUL behind them, and nothing further. |
| `Base64.EncodedIsClean` | engine/base64.c:25-79 | Encoded text consists of alphabet characters and padding, and holds no NUL. |
| `Base64.DecodedOfEncoded` | engine/base64.c:86-144 | Decoding undoes encoding, for every string of bytes. |
| `Base64.SprinkledIsKept` | engine/base64.c:124-128 | A text is the given one with other characters put in if and only if skipping those gives it back (section 6.8 of RFC 2045). |
| `Base64.RoundTrip` | engine/base64.c:86-144 | Decoding undoes encoding with characters outside the alphabet inserted anywhere. |
| `Base64.DecodeEncoded` | engine/base64.c:86-144 | The same for the buffers: n bytes and a NUL are written and nothing past index n. |
| `Base64Letters.SignificantIs` | engine/base64.c:92-106 | The characters that count are the letters of the alphabet of RFC 4648 and the equals sign; the value of a letter is its place in the alphabet. |
| `Base64Letters.EncodedIsSameNumber` | engine/base64.c:25-79 | Three bytes are encoded by the four letters whose values are the digits to the base 64 of the same number; two bytes by three letters and an equals sign, one by two and two, missing bytes counting as zero. |
| `Base64Letters.DecodedIsSameNumber` | engine/base64.c:86-144 | Any four significant characters are decoded to the three bytes of the same number, of which an equals sign in the last place drops one, and one before it two and all that follows, whatever the others are. |
| `Base64Letters.TestVectors` | engine/base64.c:25-79 | The test vectors of section 10 of RFC 4648 for "f", "fo", "foo" and "foobar". |
| `Getopt.ExchangeShortBottom` | tests/cmdline.c.pregen:511-525 | Swapping a short bottom block with the far end of the top block leaves a smaller exchange with the same outcome. |
| `Getopt.ExchangeShortTop` | tests/cmdline.c.pregen:526-538 | Swapping a short top block with the near end of the bottom block leaves a smaller exchange with the same outcome. |
| `Getopt.Scanner.SwapBlocks` | tests/cmdline.c.pregen:517-522 | The inner loop swaps two blocks of equal length in place. |
| `Getopt.Scanner.Exchange` | tests/cmdline.c.pregen:497-543 | Terminates with the two adjacent blocks in each other's place, the order inside both kept and the rest untouched, and moves the record of the others along. |
| `Getopt.ExchangedParts` | tests/cmdline.c.pregen:497-543 | Where the blocks of an exchange end up. |
| `Getopt.Scanner.ShuffleArgv` | tests/cmdline.c.pregen:561-630 | Ends the scan with the others behind the options, or stops at the next option element; it never hands a single other to the caller. |
| `Getopt.Scanner.FindLong` | tests/cmdline.c.pregen:657-676 | The search with its exact, ambiguous and first-match flags finds the option that the exact name, or else an unambiguous abbreviation, denotes. |
| `Getopt.Scanner.CheckLongOpt` | tests/cmdline.c.pregen:642-758 | A long option passes its element, and the next one exactly if it requires an argument, has none of its own and there is one; return code, argument, index, flag and offending option are what option and text mean. |
| `Getopt.Scanner.CheckShortOpt` | tests/cmdline.c.pregen:760-817 | A short option stays within its cluster or ends it, passing the next element exactly if it requires an argument, the cluster has none left and there is one; return code, argument and offending option are what the option string says. |
| `Getopt.Scanner.GetoptInternal` | tests/cmdline.c.pregen:822-919 | Every call returns the next of the outcomes that the list as it was given means, keeps the scan's invariant and gets further, or ends the scan with the array divided and every outcome told. |
| `Getopt.Scanner.ScanAll` | tests/cmdline.c.pregen:822-919 | A whole scan terminates. The calls have returned, option by option, exactly what a recursion over the original list gives, although the scan permutes the list under way; the array is then a permutation of the input, and from the scan's index on it holds exactly the others. |
| `Options.NothingBehindTheTerminator` | tests/cmdline.c.pregen:588-602 | Nothing behind "--" is told as an option, whatever it looks like. |
| `Options.NextMattersIfTaken` | tests/cmdline.c.pregen:642-817 | The element behind an option makes a difference to what is told only if the option takes it for its argument. |
| `Options.ShortIsNext` | tests/cmdline.c.pregen:760-817 | What a cluster still means is what its first option means, then what the rest of it means unless that option ends it. |
| `Getopt.UnderwayIsPermutation` | tests/cmdline.c.pregen:561-630 | At every point of a scan the array is a permutation of the input. |
| `Getopt.DivideIsPermutation` | tests/cmdline.c.pregen:822-837 | Options and others together are the arguments. |
| `Getopt.DivideKeepsOrder` | tests/cmdline.c.pregen:822-837 | Options and others are subsequences of the arguments: neither changes its order. |
| `Getopt.BehindTheTerminator` | tests/cmdline.c.pregen:588-602 | Everything behind "--" is other, whatever it looks like. |
| `CommandLines.MatchIs` | tests/cmdline.c.pregen:657-676 | A text means the first option of exactly that name, or else the first that it abbreviates if all those agree in argument, flag and value; it means none if no option begins with it, and too many if two that differ do and none has the name. |
| `CommandLines.EveryKeyMeans` | tests/cmdline.c.pregen:657-676 | Every text means exactly one option, or none, or too many. |
| `CommandLines.LongWithValue` | tests/cmdline.c.pregen:690-716 | "--key=value" of an option that may have an argument: one outcome, with that value for its argument, and the option told by its value, or through its flag; the element is an option, and what follows is read as by itself. |
| `CommandLines.LongWithNext` | tests/cmdline.c.pregen:690-716 | "--key" and "value" of an option that must have an argument: the same outcome, and both elements are options, whatever the second looks like. |
| `CommandLines.LongAlone` | tests/cmdline.c.pregen:690-716 | "--key" of an option that need not have an argument: one outcome without an argument, and the next element is not taken. |
| `CommandLines.LongLacksValue` | tests/cmdline.c.pregen:712-733 | "--key" at the end, of an option that must have an argument: a question mark, or a colon if the option string begins with one, with the value of the option. |
| `CommandLines.LongRefusesValue` | tests/cmdline.c.pregen:693-710 | "--key=value" of an option that must not have an argument: a question mark with the value of the option. |
| `CommandLines.LongIsNone` | tests/cmdline.c.pregen:677-757 | A key that means none or too many, with a value or without: a question mark with 0, and no further element is taken. |
| `CommandLines.AbbreviationWithValue` | tests/cmdline.c.pregen:657-676 | An abbreviation with a value in its element says what the full name says with it. |
| `CommandLines.AbbreviationIsName` | tests/cmdline.c.pregen:657-676 | An abbreviation without one says what the full name says, whatever follows. |
| `CommandLines.KindIs` | tests/cmdline.c.pregen:760-817 | What a character means is read off the option string as it is written: declared by its first occurrence, with no, one or two colons behind it; a colon is never declared. |
| `CommandLines.ClusterOfBare` | tests/cmdline.c.pregen:760-817 | "-abc" where none has an argument: one outcome each, the character, or a question mark that names it if it is not declared. |
| `CommandLines.ClusterWithValue` | tests/cmdline.c.pregen:776-791 | "-abcvalue" where the last option may or must have an argument: the same for those before it, and the last with all that is left of the element. |
| `CommandLines.ClusterWithNext` | tests/cmdline.c.pregen:785-814 | "-abc" and "value" where the last must have an argument: the last with the next element, whatever that looks like; both elements are options. |
| `CommandLines.ClusterWithoutValue` | tests/cmdline.c.pregen:776-784 | "-abc" where the last may have an argument: none, and the next element is not taken. |
| `CommandLines.ClusterLacksValue` | tests/cmdline.c.pregen:793-806 | "-abc" at the end where the last must have an argument: a question mark or a colon that names it. |
| `CommandLines.EveryCluster` | tests/cmdline.c.pregen:760-817 | Every cluster has one of these forms: the first option that may or must have an argument ends it. |
| `CommandLines.OtherIsPassed` | tests/cmdline.c.pregen:561-630 | An element that does not begin with a dash, or is a dash, is an other, and nothing is told of it. |
| `CommandLines.TwoDashesEnd` | tests/cmdline.c.pregen:588-602 | "--" ends the options: nothing is told of it or of what follows, and all that follows is other. |
| `CommandLines.HostnameIsTold` | tests/cmdline.c.pregen:1103-1111 | With the tables of the regression test, "--hostname=v", "--hostname" "v" and "--ho" "v" return n with the argument v and the index 2, and "--h" a question mark. |
| `BindingList.CountSlots` | server/pdsd_handlers.cc:1064-1076 | The two counts, added as the mask asks. |
| `BindingList.SelectedSize` | server/pdsd_handlers.cc:1064-1096 | For every mask the selected bindings are as many as the counts say, plus those without a tag if nothing is masked. |
| `BindingList.FitsIffTagged` | server/pdsd_handlers.cc:1064-1096 | The fill matches the allocation for every mask if and only if no binding of a real object is without a tag. |
| `BindingList.ReachableListsFit` | server/pdsd_handlers.cc:1064-1096 | In every reachable state it does. |
| `BindingList.GetBindingList` | server/pdsd_handlers.cc:1064-1096 | In any iteration order the list is exactly full, with every selected real binding once. |
| `BindingList.SelectedByOptions` | server/pdsd_handlers.cc:1064-1096 | Bit by bit: bit 0 of the options asks for the real entities, bit 1 for the real contexts, no bit at all for both, and every other bit for nothing. |
| `BindingList.Fill` | server/pdsd_handlers.cc:1078-1096 | The fill loop never leaves the list and writes every selected name once. |

## Left out

- Operations.ApplyKeepsWF: asks for live referrers, none the object itself, where something is deleted, and for live ancestors where a context is deleted or becomes real; elsewhere the engine follows a dangling pointer, and what comes of that is not modelled.
- CleaningThread.Cleanup: asks that the sweep ends, that heartbeats carry data and that the graph is sweepable; what the program does after following a null or dangling pointer is not modelled.
- CleaningThread.SweepRound: asks for the last two of these.
- TransactionStone.Stone.Receive: once the program has written outside its memory nothing further is claimed; what it prints is not modelled.
- Base64.Codec.Decode: asks for 7-bit characters, since the table is indexed by a plain char that may be negative; the source buffers of both directions are values.
- Getopt.Scanner.GetoptInternal: the messages printed for a faulty option are not modelled.
- TreeTraverse.Traverse: walks a value of the domain's state; the graph does not change under the walk.
- CleaningThread.Scan: reads the objects of the domain as a value of its state; the graph does not change under one scan.
- BindingList.Fill: its loop reads name map and placeholder flags as values; they do not change under it.
- The name of the heartbeat entity is the default one, "gs_heartbeat"; the call that changes it (`engine/CleaningThread.cc:204-208`) is not modelled.
- Pointers are object IDs: aliasing of C++ objects and reuse of freed memory do not arise, and object IDs are taken to be unique.
- One `Proactive.Network` belongs to one object; the connection manager that all objects share, the remote ends of bridge stones and their contact lists are not modelled, nor are splits and sources freed on destruction.
- The domain's lists of entities and contexts, destruction of a whole domain, and the search for a domain by name, type, version and application.
- XML text and its parser, entity elements (their loading is commented out in `engine/load.cc`), attributes, the XPath query, and dumps of several domains in one file.
- The event wrappers and remote procedure calls around the operations; events are entries of a log.
- Threads, the reader/writer lock, sleeping, the clock (a parameter), logging and tracing.
- Memory allocation, except for the buffers of the listing, the transaction stone's table and reply, the stones' program texts and base64.
- Floats are reals; integers are unbounded.
- The rest of `tests/cmdline.c.pregen`: configuration files, help text and the update of parsed arguments.
