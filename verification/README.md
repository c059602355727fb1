# Verified model of CLIProxyAPI's configuration layout, replay caches and handoff protocols

This Dafny project models the parts of CLIProxyAPI that are hardest to get right by reading
them, and proves for all inputs, or all interleavings, what those parts promise. Verify it with
`dafny verify dfyconfig.toml`.

| area | modules | what is modelled |
|---|---|---|
| layout migration | `YamlTree`, `LayoutMigration`, `MigrationTheorems`, `FlattenTheorems`, `TidyTheorems`, `PrivateIps`, `KeyGroups`, `UnmappedSettings`, `LayoutChanges` | documents, the path moves between the legacy and the v8 layout, the grouping of credentials, their meaning, and when a file is rewritten at all |
| | `PathTrie`, `LayoutTable`, `NativeSettings` | the real path tables, row by row, and the proof that they are what those theorems ask for; the settings they do not move |
| | `AliasExpansion`, `AliasedDocuments` | expanding aliases and merge keys, and what the runtime reads of files that have them |
| | `YamlNodes`, `LayoutRewriter`, `DocumentRewriter` | the same rewrites as they run, in place on a tree of nodes, proved to compute the rewrites on documents |
| merge and copies | `YamlMerge`, `YamlMergeNodes`, `NodeGraph` | merging a rendered configuration into the user's file, in place; copying arbitrary node graphs |
| replay caches | `ReplayRegister`, `AntigravityCache`, `AntigravityRuns`, `AntigravityHome`, `CodexTurns`, `CodexReplay`, `ThinkingReplay`, `Eviction` | snapshot-guarded writes on a local map and on a shared key-value store, both refining one register; trimming; byte accounting for Claude and Kimi |
| handoff protocols | `MuxListener`, `ReleaseFlusher`, `ReleaseProtocol`, `ClusterBalance` | listener shutdown, release acknowledgement and rebalancing as state machines over all runs |
| LRU structures | `LinkedList`, `LruOrder`, `BoundedLru`, `WebSearchCache` | a map and a doubly linked list that implement a sequence |
| parsers and printers | `Decimal`, `Resp`, `RespRoundTrip`, `Wav` | RESP framing and RIFF/WAVE chunks |
| settings and helpers | `Text`, `Sequences`, `Wrappers`, `OAuthSettings` | cleaning up model settings against looking them up |

How the layers fit: code that updates things in place is a class or a method with a loop. Its
contract equates the new state with a function of the old one, and the properties are lemmas
about that function. Protocols are functions from a state and an event to the next state, and
the properties are about every list of events.

Where the code does not keep a promise one might read into it, the exact condition is proved:

- `OAuthSettings.SanitizeKeepsLookups`: keys are joined with `->`, so names and aliases that
  contain an arrow can collide, and then cleaning up changes lookups (`ArrowLosesLookup`).
- `ThinkingReplay.Cache.DeleteIfUnchanged`: a conditional delete makes no room for its tombstone.
  With a snapshot that saw no entry, of a session that has none, in a full map, it passes the entry
  limit by one (`LimitPassed`). Local callers never meet this: `Cache.Get` always hands out a
  snapshot of an entry, and with such a snapshot the limits hold.
- `Wav.WriteRead`: the writer accepts more audio than the reader takes back.
- `LruOrder.GetInclusion`: unlike `GetOrAdd` and `Delete`, `Get` reorders without inserting, and
  a hit in the larger cache alone breaks the prefix order.
- `YamlMerge.MergeAgrees`: where stale keys are removed, a blank key goes although the source has
  it. The merge agrees with the source exactly if no such key matters; `BlankHeaderLost` is an
  input of the real configuration where one does.
- `TidyTheorems.RewrittenAccepted`: a file with a legacy credential list that cannot be read back
  as groups, for example because it has a null entry (`NonMappingRejected`), is accepted on load
  and rejected once migrated.
- `PrivateIps.FlattenResolves`: the deprecated switch and its legacy inverse still reach the
  decoder together if there is no v8 spelling; the decoder then rejects the file.

The migration theorems are stated for any path table that satisfies `MigrationTheorems.Separated`;
`LayoutTable.RealTableSeparated` proves that of the real one. What is taken as given: documents
have unique keys and no alias cycles, as the decoder enforces; a random branch or uuid is an id
not used before; time is an input; JSON normalisers are functions from an item to its normal form;
each call to the key-value store is atomic.

## Model

| member | source | states |
|---|---|---|
| `YamlTree.GetSetSame` | CLIProxyAPI/internal/config/config_v8.go:163-170 | a value stored at a path is what the path reads afterwards, whatever was in the way |
| `YamlTree.GetSetOther` | CLIProxyAPI/internal/config/config_v8.go:163-170 | storing at one path changes no path that is neither above nor below it |
| `YamlTree.GetSetAncestor` | CLIProxyAPI/internal/config/config_v8.go:163-170 | every mapping on the way to a stored path exists and is not empty |
| `YamlTree.GetDeleteSame` | CLIProxyAPI/internal/config/config_v8.go:215-232 | a removed path reads as absent |
| `YamlTree.GetDeleteOther` | CLIProxyAPI/internal/config/config_v8.go:215-232 | removal with pruning of emptied ancestors changes no path that is neither above nor below it |
| `YamlTree.GetDeleteAncestor` | CLIProxyAPI/internal/config/config_v8.go:215-232 | an ancestor of a removed path is gone or still holds something: no empty mapping is left behind |
| `YamlTree.GetDeleteBelow` | CLIProxyAPI/internal/config/config_v8.go:215-232 | nothing below a removed path survives |
| `YamlNodes.YamlPath` | CLIProxyAPI/internal/config/config_v8.go:152-161 | the node returned is the one the path leads to in the tree, null exactly if the path is absent |
| `YamlNodes.SetYamlPath` | CLIProxyAPI/internal/config/config_v8.go:163-170 | the tree rewritten in place stands for the stored document; only nodes of the tree and new ones are touched, and the value is copied |
| `YamlNodes.DeleteYamlPath` | CLIProxyAPI/internal/config/config_v8.go:215-232 | the tree rewritten in place stands for the document without the path and its emptied ancestors; true exactly if the path was there |
| `YamlNodes.GetOrCreateMapValue` | CLIProxyAPI/internal/config/config_yaml.go:212-229 | the value node of the first entry with the key; another kind of node is emptied into a mapping first, a missing key appended blank |
| `YamlNodes.YamlNode.FindMapKeyIndex` | CLIProxyAPI/internal/config/config_yaml.go:346-356 | index of the first entry with the key, -1 exactly if there is none |
| `YamlNodes.Overwrite` | CLIProxyAPI/internal/config/config_yaml.go:560-576 | the node takes over kind, text and a fresh copy of the children, staying the same node |
| `LayoutMigration.StepEffective` | CLIProxyAPI/internal/config/config_v8.go:492-507 | one table move keeps the effective value of every setting of the table, and with migration leaves no spelling handled so far |
| `LayoutMigration.RunEffective` | CLIProxyAPI/internal/config/config_v8.go:492-507 | so does the whole loop over the table |
| `LayoutMigration.FamilyEffective` | CLIProxyAPI/internal/config/config_v8.go:508-522 | moving a credential list into groups keeps the effective value of every setting |
| `LayoutMigration.DropTwice` | CLIProxyAPI/internal/config/config_v8.go:609-700 | dropping unknown keys twice is dropping them once |
| `MigrationTheorems.NormalizeKeepsSettings` | CLIProxyAPI/internal/config/config_v8.go:456-537 | for every document and table the rewrite relies on, migrate or not: each setting keeps the first value present among its v8 path, its historical aliases in table order and its legacy path |
| `MigrationTheorems.NormalizeRemovesLegacy` | CLIProxyAPI/internal/config/config_v8.go:456-537 | after migrating no legacy spelling of a setting, container or credential list is left, and the version is 8 |
| `MigrationTheorems.NormalizeMovesFamilies` | CLIProxyAPI/internal/config/config_v8.go:508-522 | after migrating each credential family holds its v8 groups if they were present, else the grouped legacy list |
| `MigrationTheorems.NormalizeTwice` | CLIProxyAPI/internal/config/config_v8.go:456-537 | a second migration changes nothing, not even the order of entries |
| `FlattenTheorems.PreparedReads` | CLIProxyAPI/internal/config/config_v8.go:300-334 | after the aliases and containers are resolved, a present canonical path holds the effective value, else the legacy path does |
| `FlattenTheorems.FlattenReadsEffective` | CLIProxyAPI/internal/config/config_v8.go:270-351 | in every accepted document the decoder finds each setting's effective value at the path it reads |
| `FlattenTheorems.FlattenReadsFamilies` | CLIProxyAPI/internal/config/config_v8.go:270-351 | the decoder finds the expanded v8 groups if they are present, else the legacy list as it stands |
| `FlattenTheorems.PlainListReadsBack` | CLIProxyAPI/internal/config/config_v8.go:359-452 | a plain list can be grouped and read back exactly if its weights are valid, and then gives the same credentials |
| `FlattenTheorems.NormalizeAccepted` | CLIProxyAPI/internal/config/config_v8.go:270-351 | a migrated document is accepted exactly if each legacy credential list it replaces can be grouped and read back |
| `TidyTheorems.PreparedAccepted` | CLIProxyAPI/internal/config/config_v8.go:301-327 | aliases and historical containers can be resolved exactly if no historical container is blocked by a value that is neither a mapping nor null |
| `TidyTheorems.TidyAccepted` | CLIProxyAPI/internal/config/config_v8.go:456-537 | an accepted document is still accepted after it is rewritten without migrating, as on every load |
| `TidyTheorems.RewrittenAccepted` | CLIProxyAPI/internal/config/config_v8.go:456-537 | the rewritten document is accepted: always without migrating, else exactly if each legacy credential list it replaces reads back |
| `TidyTheorems.RuntimeUnchanged` | CLIProxyAPI/internal/config/config_v8.go:270-351 | rewriting a file, migrating or not, changes no setting the runtime reads; that the result is accepted is concluded, not assumed |
| `TidyTheorems.FamiliesUnchanged` | CLIProxyAPI/internal/config/config_v8.go:270-351 | without migrating every credential list is read exactly as before; migrating keeps v8 groups, and a legacy list is read as its grouping expands |
| `TidyTheorems.CredentialsKept` | CLIProxyAPI/internal/config/config_v8.go:359-452 | a plain legacy list leaves the runtime the same credentials in the same order with the same fields, when migrated but for the dropped ones |
| `TidyTheorems.NonMappingRejected` | CLIProxyAPI/internal/config/config_v8.go:359-452 | a file with an entry that is no mapping in a legacy list is accepted and stays so on load, but is rejected once migrated |
| `PrivateIps.ResolveEnds` | CLIProxyAPI/internal/config/config_v8.go:716-742 | what becomes of the deprecated switch and the two spellings of its inverse |
| `PrivateIps.FlattenResolves` | CLIProxyAPI/internal/config/config_v8.go:270-351 | the runtime reads the setting the switch stands for, and the switch itself exactly if its legacy inverse stands beside it and no v8 spelling does |
| `PrivateIps.FlattenResolvesOthers` | CLIProxyAPI/internal/config/config_v8.go:270-351 | every other setting is read as without the switch |
| `PrivateIps.NormalizeResolves` | CLIProxyAPI/internal/config/config_v8.go:456-537 | rewriting keeps the setting the switch stands for, migrating or not, and migrating removes the switch |
| `PrivateIps.NormalizeResolvesOthers` | CLIProxyAPI/internal/config/config_v8.go:456-537 | and it keeps every other setting |
| `LayoutTable.RealTableSeparated` | CLIProxyAPI/internal/config/config_v8.go:26-150 | the conditions the migration theorems put on the tables hold of the real ones: all 21 aliases, 124 fields, 23 containers and 8 families, with exactly the keys permitted that the code permits |
| `LayoutTable.RealRelayMoved` | CLIProxyAPI/internal/config/config_v8.go:26-150 | and they move the setting of the deprecated switch as the theorems about it ask |
| `UnmappedSettings.UnmappedKept` | CLIProxyAPI/internal/config/config_v8.go:456-537 | a setting the tables say nothing about keeps its value through the rewrite, where unknown keys are dropped provided v8 permits it |
| `UnmappedSettings.UnmappedRead` | CLIProxyAPI/internal/config/config_v8.go:270-351 | the decoder finds such a setting where the document has it |
| `UnmappedSettings.UnmappedUnchanged` | CLIProxyAPI/internal/config/config_v8.go:270-351 | so the runtime reads the same value of it before and after the file is rewritten |
| `NativeSettings.NativesAre` | CLIProxyAPI/internal/config/config_v8.go:611-647 | the permitted settings that live at their v8 place already (models, plugins, quota-exceeded, routing, client) lie beside every row of the tables, but for the two the tables move |
| `NativeSettings.RealNativesUntouched` | CLIProxyAPI/internal/config/config_v8.go:611-673 | with the real tables the theorems about unmapped settings hold of all of them, routing.strategy for one: the rewrite keeps them and does not comment them out |
| `AliasedDocuments.DocumentReads` | CLIProxyAPI/internal/config/config_v8.go:820-853 | for paths of any length: looking a path up after aliases and merge keys are expanded is following them while reading |
| `AliasedDocuments.DocumentUnique` | CLIProxyAPI/internal/config/config_v8.go:276-280 | expanding a document without duplicate keys gives one without duplicate keys |
| `AliasedDocuments.RuntimeReads` | CLIProxyAPI/internal/config/config_v8.go:270-351 | in an accepted file with aliases and merge keys the decoder finds, at the path it reads, what the file says through them for that setting, the v8 spelling first |
| `AliasedDocuments.RewrittenSays` | CLIProxyAPI/internal/config/config_v8.go:456-537 | the rewritten file, migrated or not, says of every setting what the file with aliases said |
| `AliasedDocuments.RuntimeReadsRewritten` | CLIProxyAPI/internal/config/config_v8.go:456-537 | and the runtime reads of the rewritten file what the file with aliases said |
| `LayoutChanges.ChangedExactly` | CLIProxyAPI/internal/config/config_v8.go:456-537 | on load the changed flag is set exactly if the document to be written differs from the one read |
| `LayoutRewriter.MoveOne` | CLIProxyAPI/internal/config/config_v8.go:492-507 | one move in place is the move on documents; a v8 api-keys mapping does not count as the legacy list |
| `LayoutRewriter.ReviveAll` | CLIProxyAPI/internal/config/config_v8.go:480-491 | hollow legacy containers become empty mappings and are queued behind the other moves |
| `LayoutRewriter.MoveFamilies` | CLIProxyAPI/internal/config/config_v8.go:508-522 | the loop over credential families, in place |
| `LayoutRewriter.RewriteLayout` | CLIProxyAPI/internal/config/config_v8.go:476-525 | the loops over the tables, in place, stand for the rewritten document, so everything proved of that holds of it; the changed flag is that of ChangedExactly |
| `LayoutRewriter.PrepareCopy` | CLIProxyAPI/internal/config/config_v8.go:300-334 | aliases, shared containers and the version check on the copy, with their errors |
| `LayoutRewriter.FlattenTables` | CLIProxyAPI/internal/config/config_v8.go:284-351 | a new tree for what flattening by the tables gives, or the error; the given tree is not modified |
| `DocumentRewriter.NormalizePrivateIps` | CLIProxyAPI/internal/config/config_v8.go:716-740 | the deprecated switch is resolved in place with the flag that says so, or the tree left alone with the error |
| `DocumentRewriter.FlattenV8` | CLIProxyAPI/internal/config/config_v8.go:270-351 | of a parsed document with aliases and merge keys: a new tree for its flattened expansion, or the error it has |
| `DocumentRewriter.NormalizeConfigLayout` | CLIProxyAPI/internal/config/config_v8.go:456-537 | a document the flattening rejects gives that error; otherwise the tree returned stands for the rewritten expansion, and nothing is returned exactly if the changed flag is unset, on load exactly if the expansion stays the same |
| `KeyGroups.EntryRoundTrip` | CLIProxyAPI/internal/config/config_v8.go:359-452 | one legacy entry grouped and expanded has its fields again, exactly if its weight is valid |
| `KeyGroups.GroupRoundTrip` | CLIProxyAPI/internal/config/config_v8.go:359-452 | a list of plain entries survives grouping and expansion entry by entry and in order, but for auth-index fields and nulls that are not shared; it fails exactly if a weight is invalid |
| `KeyGroups.OpenAiGroupRoundTrip` | CLIProxyAPI/internal/config/config_v8.go:359-452 | an openai-compatibility list survives with a missing entry list becoming empty; it fails exactly if some entry's credentials are unusable |
| `KeyGroups.NonMappingUnreadable` | CLIProxyAPI/internal/config/config_v8.go:359-452 | a list with an entry that is no mapping cannot be read back once grouped |
| `KeyGroups.RealFieldNames` | CLIProxyAPI/internal/config/config_v8.go:353-357 | the real shared fields are as the round trip asks |
| `NodeGraph.DeepCopySeen` | CLIProxyAPI/internal/config/config_yaml.go:537-556 | terminates on every node graph, cyclic ones included; the memo only grows, and every node it gains is copied field by field with references redirected |
| `NodeGraph.DeepCopy` | CLIProxyAPI/internal/config/config_yaml.go:533-556 | the copy is isomorphic to what the node reaches, sharing included, and consists of new nodes only; the source is not modified |
| `AliasExpansion.Expand` | CLIProxyAPI/internal/config/config_v8.go:820-853 | expansion of an alias-acyclic document ends in a tree without aliases and merge keys |
| `AliasExpansion.MergeFromFind` | CLIProxyAPI/internal/config/config_v8.go:828-850 | splicing merge values: an own pair wins, else the first merge source in order that has the key |
| `AliasExpansion.MergeFromKeepsOrder` | CLIProxyAPI/internal/config/config_v8.go:828-850 | a mapping's own pairs stay first and in order |
| `AliasExpansion.SpliceMerges` | CLIProxyAPI/internal/config/config_v8.go:828-850 | the splicing loop gives exactly that content |
| `AliasExpansion.ExpandConfigAliases` | CLIProxyAPI/internal/config/config_v8.go:820-853 | the recursion over the parsed nodes ends, and gives that tree |
| `AliasExpansion.ExpandReads` | CLIProxyAPI/internal/config/config_v8.go:820-853 | a lookup in the expanded tree is the lookup in the document by the rules of the "Merge Key Language-Independent Type for YAML Version 1.1" |
| `YamlMerge.MatchElement` | CLIProxyAPI/internal/config/config_yaml.go:600-641 | the element taken over is unused and has the target's identity or structure; none is taken only if no unused one has |
| `YamlMerge.MatchedOnce` | CLIProxyAPI/internal/config/config_yaml.go:578-598 | no original element is taken over twice |
| `YamlMerge.PruneNewAgrees` | CLIProxyAPI/internal/config/config_yaml.go:451-485 | a new value without its defaults says what the value says but for what may be left out |
| `YamlMerge.MergeEntriesAt` | CLIProxyAPI/internal/config/config_yaml.go:234-271 | what the merge makes of each source key: merged if it is there, else added without defaults, or left out as a default |
| `YamlMerge.MergeEntriesOther` | CLIProxyAPI/internal/config/config_yaml.go:234-271 | keys the source does not have keep their values |
| `YamlMerge.MergeAgrees` | CLIProxyAPI/internal/config/config_yaml.go:276-342 | the merged document agrees with the source at every source key (scalars by tag and text, sequences element by element with equal length, a missing key only for a default, a null only for an empty sequence) exactly if no blank key that matters stands in a pruned mapping or in an element that takes an original over |
| `YamlMerge.NoBlankKeysSpared` | CLIProxyAPI/internal/config/config_yaml.go:812-841 | a source without blank keys meets that, whatever the destination |
| `YamlMerge.BlankHeaderLost` | CLIProxyAPI/internal/config/config_yaml.go:812-861 | with the real policy: a header with a blank name is lost from codex-api-key headers, and the result disagrees |
| `YamlMerge.BlankKeyKept` | CLIProxyAPI/internal/config/config_yaml.go:276-342 | where nothing is pruned the same mapping is merged as it is |
| `YamlMerge.UnknownKeysSurvive` | CLIProxyAPI/internal/config/config_yaml.go:276-342 | at any depth: what only the destination has, reached through mappings that are not pruned, is unchanged |
| `YamlMerge.StaleKeysRemoved` | CLIProxyAPI/internal/config/config_yaml.go:812-861 | in pruned mappings and sequence elements such keys stay exactly if the source has them up to trimming |
| `YamlMergeNodes.PruneMissingMapKeys` | CLIProxyAPI/internal/config/config_yaml.go:812-841 | the loop that removes entries in place leaves exactly those whose trimmed key the source has |
| `YamlMergeNodes.PruneKnownDefaults` | CLIProxyAPI/internal/config/config_yaml.go:451-485 | pruning in place, through mappings and sequences, stands for the pruned document |
| `YamlMergeNodes.MatchSequenceElement` | CLIProxyAPI/internal/config/config_yaml.go:600-641 | the index found is that of the element to take over, by identity first and structure second |
| `YamlMergeNodes.ReorderSequence` | CLIProxyAPI/internal/config/config_yaml.go:578-598 | the elements become the nodes taken over, the very same ones, and copies of the source's for the others |
| `YamlMergeNodes.MergeSequence` | CLIProxyAPI/internal/config/config_yaml.go:286-325 | the merged sequence stands for the merged documents, and every element taken over is still the same node |
| `YamlMergeNodes.MergeMappingPreserve` | CLIProxyAPI/internal/config/config_yaml.go:234-271 | merging in place stands for the merged document; keys and value nodes that were there stay where they are |
| `YamlMergeNodes.MergeNodePreserve` | CLIProxyAPI/internal/config/config_yaml.go:276-342 | merging in place stands for the merged document, in nodes of the destination and new ones; the source is untouched |
| `ReplayRegister.BranchChain` | CLIProxyAPI/internal/cache/antigravity_reasoning_replay_cache.go:253-353 | over every run of the register, if a key carries a branch at two times, the earlier items are a prefix of the later ones, and the key never left the branch in between |
| `ReplayRegister.NeverReturns` | CLIProxyAPI/internal/cache/antigravity_reasoning_replay_cache.go:253-353 | a branch once left is never taken up again |
| `ReplayRegister.BranchBelongsToOneKey` | CLIProxyAPI/internal/cache/antigravity_reasoning_replay_cache.go:253-353 | no branch ever serves two conversations |
| `AntigravityCache.WriteRefines` | CLIProxyAPI/internal/cache/antigravity_reasoning_replay_cache.go:256-353 | a write on a new branch, or on that of the live entry it continues, keeps the state consistent and is a step of the register |
| `AntigravityCache.ForgetRefines` | CLIProxyAPI/internal/cache/antigravity_reasoning_replay_cache.go:623-656 | so do eviction, expiry and touching timestamps |
| `AntigravityCache.AuthorisedByOwner` | CLIProxyAPI/internal/cache/antigravity_reasoning_replay_cache.go:333-352 | a snapshot that authorises a write was taken of this very key and the write it read, or one that continues it, is still there: no ABA, no cross-talk, also after eviction |
| `AntigravityCache.Cache.CacheItems` | CLIProxyAPI/internal/cache/antigravity_reasoning_replay_cache.go:99-142 | stores accepted items on a new branch under a new revision |
| `AntigravityCache.Cache.Get` | CLIProxyAPI/internal/cache/antigravity_reasoning_replay_cache.go:230-250 | a hit touches the entry and returns its items; a miss leaves a tombstone the snapshot names |
| `AntigravityCache.Cache.ReserveAbsent` | CLIProxyAPI/internal/cache/antigravity_reasoning_replay_cache.go:256-275 | a miss is fenced with a tombstone of this key, still there after making room |
| `AntigravityCache.Cache.ReplaceIfUnchanged` | CLIProxyAPI/internal/cache/antigravity_reasoning_replay_cache.go:279-352 | succeeds exactly if the snapshotted write is still there or a live continuation of it that the new items extend; the branch is kept exactly if the items follow the prefix rule |
| `AntigravityCache.Cache.DeleteIfUnchanged` | CLIProxyAPI/internal/cache/antigravity_reasoning_replay_cache.go:357-385 | succeeds exactly on the state that was read, and leaves a tombstone |
| `AntigravityCache.Cache.DeleteRequired` | CLIProxyAPI/internal/cache/antigravity_reasoning_replay_cache.go:396-418 | leaves a tombstone on a new branch |
| `AntigravityCache.Cache.Clear` | CLIProxyAPI/internal/cache/antigravity_reasoning_replay_cache.go:478-483 | forgets the entries but never the revision and epoch counters |
| `AntigravityCache.Cache.EvictOldest` | CLIProxyAPI/internal/cache/antigravity_reasoning_replay_cache.go:623-645 | evicts the given number of entries, each not younger than any that stays, and counts them in the epoch |
| `AntigravityCache.Cache.Purge` | CLIProxyAPI/internal/cache/antigravity_reasoning_replay_cache.go:647-656 | keeps exactly the entries that did not expire |
| `AntigravityRuns.AllTakenForever` | CLIProxyAPI/internal/cache/antigravity_reasoning_replay_cache.go:279-385 | a snapshot a request holds still shows a write to its conversation, however many writes were made since |
| `AntigravityRuns.Perform` | CLIProxyAPI/internal/cache/antigravity_reasoning_replay_cache.go:230-385 | any call with snapshots of any age succeeds or fails as a step of the register, and leaves every held snapshot usable |
| `AntigravityRuns.RunChained` | CLIProxyAPI/internal/cache/antigravity_reasoning_replay_cache.go:279-352 | if a conversation is on the same branch at two times of such a run, its items only grew and it was on that branch all the while |
| `AntigravityRuns.Serve` | CLIProxyAPI/internal/cache/antigravity_reasoning_replay_cache.go:99-398 | so it is for any sequence of calls of any number of requests on the real cache |
| `AntigravityHome.NextRefines` | CLIProxyAPI/internal/cache/antigravity_reasoning_replay_cache.go:170-228 | every event of every request, at any point of its retry loop, is a step of the register, with values expiring at any time |
| `AntigravityHome.SwapAuthorised` | CLIProxyAPI/internal/cache/antigravity_reasoning_replay_cache.go:292-332 | a swap that succeeds replaces the value that was read, or a live value of its branch between what was read and what is written |
| `AntigravityHome.DeleteOnlyWhatWasRead` | CLIProxyAPI/internal/cache/antigravity_reasoning_replay_cache.go:357-375 | a conditional delete clears only the very value that was read, and only of its own conversation |
| `AntigravityHome.TraceIsRun` | CLIProxyAPI/internal/cache/antigravity_reasoning_replay_cache.go:170-332 | every interleaving of requests is a run of the register |
| `AntigravityHome.StoredChain` | CLIProxyAPI/internal/cache/antigravity_reasoning_replay_cache.go:170-332 | so stored values of one branch only ever grow, for all interleavings and expiries |
| `Eviction.Victims` | CLIProxyAPI/internal/cache/antigravity_reasoning_replay_cache.go:623-645 | the keys chosen for eviction are the given number of oldest ones |
| `CodexTurns.TrimmedLongest` | CLIProxyAPI/internal/cache/codex_reasoning_replay_cache.go:212-230 | what trimming keeps is the longest suffix of whole turns within both limits, nothing if not even the last turn fits |
| `CodexTurns.LongestFitUnique` | CLIProxyAPI/internal/cache/codex_reasoning_replay_cache.go:212-230 | there is only one such suffix |
| `CodexTurns.Trim` | CLIProxyAPI/internal/cache/codex_reasoning_replay_cache.go:212-230 | the loop ends and returns it |
| `CodexTurns.Append` | CLIProxyAPI/internal/cache/codex_reasoning_replay_cache.go:190-210 | appends a turn and trims, or changes nothing if the turn is there |
| `CodexTurns.TrimAppend` | CLIProxyAPI/internal/cache/codex_reasoning_replay_cache.go:190-230 | trimming before appending loses nothing that trimming once would keep |
| `CodexTurns.OnlineIsOffline` | CLIProxyAPI/internal/cache/codex_reasoning_replay_cache.go:190-230 | appending distinct turns one by one with trimming is trimming the whole history once |
| `CodexTurns.AppendedTidy` | CLIProxyAPI/internal/cache/codex_reasoning_replay_cache.go:190-230 | retained turn ids stay unique and the limits hold |
| `CodexTurns.AppendTwice` | CLIProxyAPI/internal/cache/codex_reasoning_replay_cache.go:190-210 | appending a fitting turn again changes nothing |
| `CodexReplay.Cache.AppendItems` | CLIProxyAPI/internal/cache/codex_reasoning_replay_cache.go:173-187 | a conversation that did not expire gets the turn appended, any other starts with it; a batch of the oldest goes only past the bound |
| `CodexReplay.Cache.CacheItems` | CLIProxyAPI/internal/cache/codex_reasoning_replay_cache.go:76-116 | replaces the conversation with the accepted items |
| `CodexReplay.Cache.Get` | CLIProxyAPI/internal/cache/codex_reasoning_replay_cache.go:255-295 | returns a live conversation and keeps it alive, forgets an expired one |
| `CodexReplay.Cache.EvictOldest` | CLIProxyAPI/internal/cache/codex_reasoning_replay_cache.go:462-483 | evicts the given number of entries, none younger than any that stays |
| `CodexReplay.NoLostAppend` | CLIProxyAPI/internal/cache/codex_reasoning_replay_cache.go:118-171 | in every interleaving each stored conversation is what its base becomes by appending, in order, every turn successfully added since |
| `CodexReplay.SuccessAppends` | CLIProxyAPI/internal/cache/codex_reasoning_replay_cache.go:131-171 | in every interleaving a request that succeeds has put its turn behind all that were there, and there it stays until the conversation is set anew or lost |
| `CodexReplay.ConversationIsTrimmedHistory` | CLIProxyAPI/internal/cache/codex_reasoning_replay_cache.go:118-171 | so a conversation built from nothing by concurrent requests is the longest fitting suffix of all turns they added |
| `ThinkingReplay.TrimmedLongest` | CLIProxyAPI/internal/cache/claude_thinking_replay_cache.go:367-382 | a session keeps the longest suffix of turns within 64 turns and 8 MiB |
| `ThinkingReplay.NewTurnKept` | CLIProxyAPI/internal/cache/claude_thinking_replay_cache.go:367-382 | a turn that fits by itself is the last one kept |
| `ThinkingReplay.AppendContent` | CLIProxyAPI/internal/cache/claude_thinking_replay_cache.go:367-382 | the loop drops turns from the front until the rest fits; a turn that is known is not added again |
| `ThinkingReplay.TotalWithout` | CLIProxyAPI/internal/cache/claude_thinking_replay_cache.go:392-398 | the sum over all entries is one entry's bytes and the sum over the others |
| `ThinkingReplay.Cache.EnforceLimits` | CLIProxyAPI/internal/cache/claude_thinking_replay_cache.go:438-446 | ends with both limits met, by evicting oldest first; the branch for an empty map is never taken |
| `ThinkingReplay.Cache.EvictOldest` | CLIProxyAPI/internal/cache/claude_thinking_replay_cache.go:448-471 | one batch goes, none younger than any that stays, and the running total stays the sum over the entries |
| `ThinkingReplay.Cache.Store` | CLIProxyAPI/internal/cache/claude_thinking_replay_cache.go:354-365 | stores under a new generation and makes room; the total stays the sum |
| `ThinkingReplay.Cache.Reserve` | CLIProxyAPI/internal/cache/claude_thinking_replay_cache.go:347-352 | leaves a tombstone for a missing session, put back if making room took it, within the limits |
| `ThinkingReplay.Cache.Get` | CLIProxyAPI/internal/cache/claude_thinking_replay_cache.go:143-161 | returns the contents of a live session; a miss leaves a tombstone the snapshot names |
| `ThinkingReplay.Cache.ReplaceIfUnchanged` | CLIProxyAPI/internal/cache/claude_thinking_replay_cache.go:197-213 | succeeds exactly if the snapshot still names the current write, of this very session, and appends to it |
| `ThinkingReplay.Cache.DeleteIfUnchanged` | CLIProxyAPI/internal/cache/claude_thinking_replay_cache.go:215-249 | succeeds exactly on what was read; it passes the entry limit exactly for a snapshot that saw no entry, of a session that has none, in a full map, and never for a snapshot that saw one |
| `ThinkingReplay.LimitPassed` | CLIProxyAPI/internal/cache/claude_thinking_replay_cache.go:215-249 | such a call exists: a full map and what the delete makes of it |
| `ThinkingReplay.Cache.Purge` | CLIProxyAPI/internal/cache/claude_thinking_replay_cache.go:473-482 | keeps exactly the live entries; the total stays the sum |
| `ThinkingReplay.Cache.CacheContent` | CLIProxyAPI/internal/cache/kimi_thinking_replay_cache.go:80-110 | one content per session, stored unconditionally; afterwards both limits hold |
| `ThinkingReplay.RoomForTombstone` | CLIProxyAPI/internal/cache/kimi_thinking_replay_cache.go:342-347 | putting a tombstone back after making room for it breaks no limit |
| `MuxListener.EveryConnectionAccounted` | CLIProxyAPI/internal/api/mux_listener.go:29-94 | in every reachable state of every interleaving each connection given to Put is in exactly one place: starting, in Put, queued, held, delivered, closed or refused |
| `MuxListener.NothingLostAtRest` | CLIProxyAPI/internal/api/mux_listener.go:29-94 | when all calls have returned, every connection was delivered, closed once or refused |
| `MuxListener.ClosedForGood` | CLIProxyAPI/internal/api/mux_listener.go:68-94 | once Close returned the queue stays empty, nothing is delivered and no Put is in flight |
| `MuxListener.CounterFalls` | CLIProxyAPI/internal/api/mux_listener.go:29-48 | after closed is set nobody adds to the wait group any more |
| `MuxListener.SecondCheckStops` | CLIProxyAPI/internal/api/mux_listener.go:50-66 | in every run, what Accept calls hold when the close is signalled is never delivered: later it is still held or closed by the listener |
| `MuxListener.ClosingGoesOn` | CLIProxyAPI/internal/api/mux_listener.go:68-94 | closing only goes forward; once signalled nothing more is delivered, once locked nobody enters Put |
| `MuxListener.WorkNeverGrows` | CLIProxyAPI/internal/api/mux_listener.go:68-94 | while closing, nobody adds to what Close waits for |
| `MuxListener.CloseNeverStuck` | CLIProxyAPI/internal/api/mux_listener.go:68-94 | and as long as Close has not returned some enabled action does a piece of it |
| `ReleaseFlusher.Flusher.MarkDirty` | CLIProxyAPI/internal/home/concurrency_release.go:77-100 | issues a waiter exactly for acceptable sequences, completing one that is acknowledged already at once |
| `ReleaseFlusher.Flusher.Acknowledge` | CLIProxyAPI/internal/home/concurrency_release.go:216-230 | completes and removes exactly the waiters up to the acknowledged sequence, each channel closed once |
| `ReleaseFlusher.Flusher.Snapshot` | CLIProxyAPI/internal/home/concurrency_release.go:187-200 | the groups with unacknowledged sequences, at their latest |
| `ReleaseFlusher.Flusher.Idle` | CLIProxyAPI/internal/home/concurrency_release.go:258-267 | true exactly if nothing is pending, and then every ticket ever issued is completed |
| `ReleaseFlusher.DelayDoubles` | CLIProxyAPI/internal/home/concurrency_release.go:136-149 | n failures in a row give interval times two to the n, cut at the largest backoff, and one success resets it |
| `ReleaseProtocol.EverythingGrows` | CLIProxyAPI/internal/home/concurrency_release.go:77-233 | in every run latest and acknowledged sequences only grow and completed tickets stay completed |
| `ReleaseProtocol.WaitersBetween` | CLIProxyAPI/internal/home/concurrency_release.go:77-233 | acknowledged < waiting <= latest in every reachable state, and a waiter is not completed |
| `ReleaseProtocol.CompletedAfterSuccess` | CLIProxyAPI/internal/home/concurrency_release.go:187-233 | a ticket is completed only after a successful send of at least its sequence |
| `ReleaseProtocol.SentNeverDecrease` | CLIProxyAPI/internal/home/concurrency_release.go:187-233 | the sequences sent for one group never decrease |
| `ReleaseProtocol.CleanPassCompletes` | CLIProxyAPI/internal/home/concurrency_release.go:187-233 | a pass without a failed send completes every ticket issued before its snapshot |
| `ClusterBalance.AcknowledgedBetween` | CLIProxyAPI/internal/home/cluster_balance.go:77-200 | between a granted claim and any later claim the result of the earlier plan was acknowledged |
| `ClusterBalance.OneOutcome` | CLIProxyAPI/internal/home/cluster_balance.go:77-223 | all reports about one claimed plan carry the same outcome |
| `ClusterBalance.SuccessAfterPing` | CLIProxyAPI/internal/home/cluster_balance.go:139-211 | success is reported only after that plan's target answered a ping |
| `ClusterBalance.Client.Execute` | CLIProxyAPI/internal/home/cluster_balance.go:139-200 | the commands sent keep the protocol; a move is requested only with a claimed plan whose target answered and is not the current node |
| `ClusterBalance.Client.Sync` | CLIProxyAPI/internal/home/cluster_balance.go:77-135 | registers if needed, and reports an outcome until it is acknowledged; nothing is sent while moving |
| `ClusterBalance.Client.Finish` | CLIProxyAPI/internal/home/cluster_balance.go:202-211 | a move that arrived is reported as a success |
| `ClusterBalance.Client.Fail` | CLIProxyAPI/internal/home/cluster_balance.go:213-223 | a failed move goes back to the origin and counts as a failure |
| `ClusterBalance.Choose` | CLIProxyAPI/internal/home/cluster_balance.go:225-245 | draws among exactly the usable nodes with the fewest clients, each of which can be drawn; none exactly if no node is usable |
| `ClusterBalance.Client.NewLifetime` | CLIProxyAPI/internal/home/client.go:226-256 | a new lifetime registers anew and goes on with a move at its target |
| `LruOrder.Inclusion` | CLIProxyAPI/internal/cache/bounded_lru.go:38-95 | after any GetOrAdd and Delete calls the keys at a smaller capacity are a prefix of those at a larger one |
| `LruOrder.GetInclusion` | CLIProxyAPI/internal/cache/bounded_lru.go:68-77 | one Get keeps that exactly if both or neither have the key, or the smaller is empty |
| `LruOrder.KeysStayDistinct` | CLIProxyAPI/internal/cache/bounded_lru.go:38-95 | keys stay unique and within the capacity |
| `BoundedLru.BoundedLru.GetOrAdd` | CLIProxyAPI/internal/cache/bounded_lru.go:38-66 | map and list together do the move-to-front step; the evicted pair is the last one, and only past the capacity |
| `BoundedLru.BoundedLru.Get` | CLIProxyAPI/internal/cache/bounded_lru.go:68-77 | a hit moves to the front, a miss changes nothing |
| `BoundedLru.BoundedLru.Delete` | CLIProxyAPI/internal/cache/bounded_lru.go:79-95 | removes the pair and hands it to the callback |
| `BoundedLru.BoundedLru.Len` | CLIProxyAPI/internal/cache/bounded_lru.go:97-101 | map and list agree on the length, within the capacity |
| `BoundedLru.BoundedLru.constructor` | CLIProxyAPI/internal/cache/bounded_lru.go:24-34 | an empty cache of at least capacity one |
| `WebSearchCache.StoredMeans` | CLIProxyAPI/internal/cache/claude_web_search_result_cache.go:71-126 | the new result is kept and the bound holds; a live result is evicted only if all that stay are live |
| `WebSearchCache.Cache.PurgeExpired` | CLIProxyAPI/internal/cache/claude_web_search_result_cache.go:206-215 | removing while walking from the back keeps exactly the results that did not expire, in order |
| `WebSearchCache.Cache.Store` | CLIProxyAPI/internal/cache/claude_web_search_result_cache.go:71-126 | index and list agree; expired results go first when there is no room, then the least recently used |
| `WebSearchCache.Cache.Get` | CLIProxyAPI/internal/cache/claude_web_search_result_cache.go:140-190 | an expired result goes, a live one moves to the front and lives longer |
| `WebSearchCache.Cache.Drop` | CLIProxyAPI/internal/cache/claude_web_search_result_cache.go:217-221 | an element leaves index and list together |
| `Resp.Reader.NextArray` | CLIProxyAPI/internal/api/redis_queue_protocol.go:413-438 | the reader consumes from the stream exactly what the grammar reads, with its errors |
| `Resp.Reader.NextString` | CLIProxyAPI/internal/api/redis_queue_protocol.go:440-453 | likewise for one string of either kind |
| `Resp.Reader.NextBulk` | CLIProxyAPI/internal/api/redis_queue_protocol.go:455-475 | likewise for a bulk string |
| `Resp.Reader.NextLine` | CLIProxyAPI/internal/api/redis_queue_protocol.go:477-485 | likewise for a line |
| `Resp.Writer.WriteBulks` | CLIProxyAPI/internal/api/redis_queue_protocol.go:528-541 | appends the encoding of every item |
| `Resp.Writer.WriteItems` | CLIProxyAPI/internal/api/redis_queue_protocol.go:528-541 | appends the array encoding |
| `Resp.WriteArray` | CLIProxyAPI/internal/home/certificate.go:335-348 | the buffer is the array encoding of the arguments |
| `RespRoundTrip.LineRoundTrip` | CLIProxyAPI/internal/api/redis_queue_protocol.go:477-485 | a line without a newline is read as written, and no more |
| `RespRoundTrip.BulkRoundTrip` | CLIProxyAPI/internal/api/redis_queue_protocol.go:455-526 | a bulk string reads back, embedded line ends included; nil reads as empty |
| `RespRoundTrip.ItemsRoundTrip` | CLIProxyAPI/internal/api/redis_queue_protocol.go:413-541 | an array reads back as written and leaves the bytes behind it untouched (RESP2, "Arrays" and "Bulk strings") |
| `RespRoundTrip.TruncatedNeverRead` | CLIProxyAPI/internal/api/redis_queue_protocol.go:413-475 | no proper prefix of an array is read as an array: the error is an unexpected end |
| `RespRoundTrip.SimpleRoundTrip` | CLIProxyAPI/internal/api/redis_queue_protocol.go:440-493 | a simple string reads back exactly if it has no newline in it |
| `RespRoundTrip.StreamRoundTrip` | CLIProxyAPI/internal/home/certificate.go:335-348 | any number of requests in a row read back in order, and what follows is untouched |
| `RespRoundTrip.EncodingInjective` | CLIProxyAPI/internal/home/certificate.go:335-348 | different argument lists have different encodings |
| `Wav.ScanFile` | CLIProxyAPI/examples/realtime-openai-go/wav.go:39-67 | the chunk loop ends with every access in bounds, and computes the scan |
| `Wav.ReadFile` | CLIProxyAPI/examples/realtime-openai-go/wav.go:17-90 | the reader's result or error for every byte sequence |
| `Wav.ScanRender` | CLIProxyAPI/examples/realtime-openai-go/wav.go:39-67 | scanning any well-formed list of chunks is interpreting the chunks one by one |
| `Wav.ScannedIsRendered` | CLIProxyAPI/examples/realtime-openai-go/wav.go:39-67 | whatever scans without error is such a list and a short tail |
| `Wav.ReadMeans` | CLIProxyAPI/examples/realtime-openai-go/wav.go:17-90 | such a file is accepted exactly if its formats are complete, the last one playable and the audio whole, non-empty and within the limit; then the data chunks' concatenation is returned, whatever stands between |
| `Wav.ReadableIsRendered` | CLIProxyAPI/examples/realtime-openai-go/wav.go:17-90 | every accepted file is of that form |
| `Wav.WriteFile` | CLIProxyAPI/examples/realtime-openai-go/wav.go:92-147 | the buffer filled step by step is header and audio |
| `Wav.WriteRead` | CLIProxyAPI/examples/realtime-openai-go/wav.go:17-147 | what the writer writes is read back exactly if the audio is within the 15 MiB input limit |
| `OAuthSettings.Sanitize` | CLIProxyAPI/internal/config/config_normalization.go:160-208 | the backward loop keeps of every key the last setting, in order |
| `OAuthSettings.SanitizeKeepsLookups` | CLIProxyAPI/internal/config/config_normalization.go:160-208 | every lookup selects the same setting before and after exactly if every selectable setting is the last of its key |
| `OAuthSettings.ArrowFreeKept` | CLIProxyAPI/internal/config/config_normalization.go:160-208 | no lookup changes for settings without "->" in a name |
| `OAuthSettings.ArrowLosesLookup` | CLIProxyAPI/internal/config/config_normalization.go:160-208 | two settings with an arrow in name and alias share a key, and a lookup is lost |
| `OAuthSettings.SanitizeTwice` | CLIProxyAPI/internal/config/config_normalization.go:160-208 | cleaning up twice is cleaning up once |
| `OAuthSettings.Resolve` | CLIProxyAPI/internal/config/config_types.go:515-545 | the last setting that matches by alias, else the last that matches by name |

## Left out

Layout migration
- YAML text parsing and printing, comments, styles and anchors, and the archive of unknown sections: documents are nodes after parsing, and unknown keys are just dropped.
- `restoreV8Layout` (CLIProxyAPI/internal/config/config_v8.go:744-798).
- LayoutTable.RealTableSeparated: the rows and the permitted keys are written out, where the code derives them from struct fields by reflection.
- LayoutMigration.DropTwice: unknown keys are dropped, where the code keeps them as comments.
- MigrationTheorems.NormalizeKeepsSettings: of documents without the deprecated switch `allow-private-remote-ips`; `PrivateIps.NormalizeResolves` and `NormalizeResolvesOthers` are about all documents.
- DocumentRewriter.NormalizeConfigLayout: a file without any document (an error if migrating, else left alone) is not modelled.
- AliasedDocuments.RuntimeReads: of documents in which no key of the tables is tagged as a merge key.
- PrivateIps.FlattenResolves: decoding a node as a bool is a parameter.
- FlattenTheorems.FlattenReadsEffective: an alias whose v8 path is also that of a field is covered by the field.
- KeyGroups.GroupRoundTrip: weight parsing is a parameter, and field names are dot-free and distinct, as the typed decoder's are.
- YamlNodes.SetYamlPath: recursive where the code loops over the path; grouping and dropping unknown keys work on documents that are then written into the tree.
- AliasExpansion.ExpandReads: keys are scalars; expansion works on a store of nodes without updating it, and its result is a value that is then written into nodes.

Merge
- YamlMergeNodes.MergeNodePreserve: alias-free documents; comments and styles are not modelled, only that existing nodes stay in place.
- YamlMergeNodes.ReorderSequence: copies for unmatched elements are made while reordering, where the code makes them while merging.
- YamlMerge.MergeEntriesAt: the mapping that holds plugin configurations is skipped, as the code replaces it as a whole elsewhere.
- Trimming and case folding are those of ASCII.

Replay caches
- AntigravityCache.Cache.Get: revisions are unbounded, so their wrap-around at 64 bits is not modelled.
- AntigravityHome.NextRefines: values in the store were written by this protocol; a failed call ends its request; the size check on marshalled values is not modelled; refreshing a time to live has no effect.
- CodexReplay.NoLostAppend: a swap is decided by the content of the value, as the values carry no generation.
- Home modes of the Claude, Kimi and web search caches; the xAI and signature caches; JSON equality and validity of contents are parameters.

Protocols
- MuxListener.EveryConnectionAccounted: `Put(nil)` and repeated `Close` calls are omitted, and a direct hand-off between goroutines is an insertion followed by a removal.
- ReleaseFlusher.Flusher.MarkDirty: timers, wake-ups and the Run loop are omitted; without a sender a pass sends nothing and completes nothing.
- ClusterBalance.Client.Execute: calls do not overlap; replies, fitness of the client and cancellation are parameters; logging is omitted.

Structures and parsers
- BoundedLru.BoundedLru.GetOrAdd: the eviction callback is the returned pair; locking is omitted.
- WebSearchCache.Cache.Store: the entry record is kept beside its element in the index; keys are taken as injective in session and tool call.
- Resp.Reader.NextArray: bytes are characters; failing allocations for huge declared lengths and a nil writer are not modelled.
- Wav.ReadFile: file access is omitted; the size field of the RIFF header is ignored, as in the code.
- OAuthSettings.Sanitize: one channel; several raw channel names that normalise to one depend on map order and are not modelled.

Whole areas
- HTTP routing, middleware, TLS, login, certificates beyond `encodeRESPArray`, discovery and the translators: plumbing over libraries.
