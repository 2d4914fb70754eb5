# Datastore layer, error references, static-route commands and VRRP debug flags

This project models five small pieces of an FRR-based routing suite in
Dafny and proves properties of them.

- **cmgd datastores** (`cmgd/cmgd_db.h`, `cmgd/cmgd_db.c`). Three statically
  allocated datastore contexts (RUNNING, CANDIDATE, OPERATIONAL) are
  filled once by `cmgd_db_init`. Handle lookups return them by id. Lock,
  merge, copy and get-data requests only reject a null handle. A batched
  walk evaluates a base xpath with a trailing "all children" wildcard and
  records each match (and, when asked, its descendants) into the caller's
  arrays. Lookup and iteration are both built on the walk. Delete frees a
  node's subtree together with a dependant node's subtree. Module
  `DbNames` covers the id/name tables and `XpathWildcard` the two in-place
  wildcard edits. `DataTree` is the tree the datastores hold: a map from
  path to node, with a `lyd_find_xpath` stand-in and subtree freeing.
  `DbWalk` gives what the walk records as functions. `CmgdDb` holds the
  contexts, the walk over real arrays, lookup, delete and iteration.
- **Error references and the error slot** (`lib/ferr.c`). Module
  `LogRefs` covers `log_ref_block_add`: it links a block of log
  references at the tail of a list, gives each reference a hash id, and
  writes that id as a 7-symbol base-32 prefix. Module `ErrorInfo` covers
  the per-thread error record (`ferr_set_*`, `ferr_clear`,
  `ferr_get_last`) and the `$ERR` splice of `vty_print_error`.
- **Static-route commands** (`staticd/static_vty.c`). Module `StaticVty`
  covers `static_route_leak`. It checks the argument combination,
  classifies the nexthop and queues an ordered list of northbound changes
  on the vty. The module also covers `static_route` and the argument
  defaulting of the `ip route` / `ipv6 route` wrappers. Module
  `ConfigWrite` covers `static_config`, which writes each nexthop back as
  a command line. It also shows that the written options read back as
  the nexthop's settings.
- **VRRP debug flags** (`vrrpd/vrrp_debug.c`). Module `VrrpDebug` covers
  the seven debug records and the parallel array of their config lines.
  It also covers `vrrp_debug_set` and the config/status writers.

Where the source changes state in place, the model does too. The
datastore contexts, `cmgd_master`, the walk's output arrays, the
wildcard buffer, the log-reference list and prefix buffers, the error
record, the vty change queue and the debug records are classes and
arrays. Their methods are proved against the functions that define their results (`Walk`,
`Fill`, `AppendWildcard`, `Prefix`, `ErrorText`, `AddChanges`, `Emitted`).

Two facts about the code shape the model:

- The walk writes `dnodes[*num_nodes]` and its sibling arrays without
  checking their size, and no capacity error exists. The model therefore
  has the caller guarantee room (`Fits`).
- `cmgd_db_delete_data_nodes` takes no lock, so the model of delete has
  none either.

Constants the shown files use but do not define are fixed as follows.

- Datastore ids: NONE=0, RUNNING=1, CANDIDATE=2, OPERATIONAL=3, MAX_ID=4.
  This order follows the comments on `cmgd_db_names`.
- `CMGD_MAX_XPATH_LEN` is 1024 and `NB_ERR_NOT_FOUND` is 3.
- `CMGD_DB_NAME_OPERATION`, used in `cmgd_db_names` but not defined in
  `cmgd_db.h`, is taken to be "operational".
- `CMD_SUCCESS` is 0 and `CMD_WARNING_CONFIG_FAILED` is 13.
- `ZEBRA_STATIC_DISTANCE_DEFAULT` is 1 and `VRF_DEFAULT_NAME` is
  "default".
- `CONFIG_NODE` is 4.
- `DEBUG_MODE_TERM` is 0x01000000 and `DEBUG_MODE_CONF` is 0x02000000,
  with `DEBUG_MODE_ALL` both. As in FRR's lib/debug.h, which is not part
  of this model, setting ors the mode in, clearing ands its complement,
  and `DEBUG_NODE2MODE` gives ALL inside the configuration node and TERM
  elsewhere.
- `ferr_ok()` is 0.

## Model

| member | source | states |
|---|---|---|
| DbNames.Id2Name | cmgd/cmgd_db.h:69-74 | the name returned is always an entry of the names table |
| DbNames.Id2NameClamps | cmgd/cmgd_db.h:69-74 | an id above MAX_ID gets the name of MAX_ID, "Unknown/Invalid"; an id in range gets its own entry |
| DbNames.Name2IdFrom | cmgd/cmgd_db.h:76-87 | the scan returns the first id from its start whose name matches within 32 characters, or NONE when none matches; the result is always below MAX_ID |
| DbNames.Name2Id | cmgd/cmgd_db.h:76-87 | the id found is always one of NONE..MAX_ID-1 |
| DbNames.NamesDistinct | cmgd/cmgd_db.c:60-66 | no two entries of the names table compare equal within 32 characters |
| DbNames.NameRoundTrip | cmgd/cmgd_db.h:43-87 | name2id(id2name(id)) == id for every id the FOREACH loop visits |
| DbNames.UnknownNameMapsToNone | cmgd/cmgd_db.h:69-87 | the name of MAX_ID, and so of every larger id, maps back to NONE |
| DbNames.GetDbIdByName | cmgd/cmgd_db.h:89-98 | the result is NONE, CANDIDATE, RUNNING or OPERATIONAL |
| DbNames.GetDbIdByNameExact | cmgd/cmgd_db.h:89-98 | each of the three ids is returned exactly for its literal name, and NONE exactly for every other string |
| DbNames.StrnEqExact | cmgd/cmgd_db.h:91-95 | a comparison over sizeof(literal) characters, the NUL included, is exact equality |
| XpathWildcard.EffectiveLen | cmgd/cmgd_db.h:105-106 | a zero length is replaced by strlen, any other length is kept |
| XpathWildcard.AppendTrailWildcard | cmgd/cmgd_db.h:99-120 | a NULL buffer or length pointer changes nothing; otherwise the buffer holds the appended path, NUL-terminated, the rest of the buffer is untouched, and the returned length is the new path's |
| XpathWildcard.RemoveTrailWildcard | cmgd/cmgd_db.h:122-136 | a NULL buffer or length pointer changes nothing; otherwise at most one NUL is written, where the stripped path ends, and the length is that path's |
| XpathWildcard.AppendExtends | cmgd/cmgd_db.h:108-120 | appending only extends the path, by at most two characters |
| XpathWildcard.AppendChangesIff | cmgd/cmgd_db.h:108-120 | the path changes exactly when 2 < len < MAX-2 and it does not end in '*'; a path ending in '/' grows by one, any other changed path by two |
| XpathWildcard.AppendIdempotent | cmgd/cmgd_db.h:108-120 | a second append changes nothing |
| XpathWildcard.RemoveStripsIff | cmgd/cmgd_db.h:131-135 | remove changes the path exactly when it is longer than two and ends in "/*", and then removes just those two characters |
| XpathWildcard.RoundTrip | cmgd/cmgd_db.h:99-136 | for a path in range ending in neither '/' nor '*', append adds "/*" and remove restores the path |
| XpathWildcard.RoundTripLosesTrailingSlash | cmgd/cmgd_db.h:109-112 | for a path ending in '/', append then remove loses the slash |
| DataTree.FindXpath | cmgd/cmgd_db.c:225-235 | the stand-in for lyd_find_xpath fails exactly for a NULL xpath or one the tree's libyang context refuses, and every match it returns is a node of the tree |
| DataTree.FindChildren | cmgd/cmgd_db.c:225-231 | a plain base path with its wildcard appended fails when that query is refused, and otherwise matches exactly the base node's children |
| DataTree.DescentDecreases | cmgd/cmgd_db.c:279-285 | the recursive call into a match, or into a NULL base, is measured below the set it came from, so the recursion ends |
| DataTree.FreeTreeSound | cmgd/cmgd_db.c:355-357 | lyd_free_tree keeps the tree well formed, frees the node and everything below it, and keeps every other node with its schema node |
| DataTree.SubtreeIsUnder | cmgd/cmgd_db.c:357 | every child of a freed node is freed too, so the whole subtree goes |
| DbWalk.ChildWalkIsWalk | cmgd/cmgd_db.c:279-285 | the recursive call for a tree node is the walk from that node's path |
| DbWalk.Visits | cmgd/cmgd_db.c:266-271 | iter_fn is called once per recorded node |
| DbWalk.VisitsAt | cmgd/cmgd_db.c:266-271 | call j of iter_fn gets the j-th recorded node, its xpath when an xpaths array is passed, and, when an nbnodes array is passed, that node's own northbound node: this is the corrected nbnodes of the Findings row, not the value lines 247-249 store |
| DbWalk.Schemas | cmgd/cmgd_db.c:247-249 | the nbnodes array should hold the northbound node of each recorded node, slot by slot |
| DbWalk.WalkSetDescends | cmgd/cmgd_db.c:273-290 | one unfolding of the walk's loop, used by the loop proof: with children wanted and a set of several matches, a successful recursive call adds its records right after the match, and its count is taken off the budget |
| DbWalk.WalkSetStops | cmgd/cmgd_db.c:279-287 | one unfolding of the walk's loop, used by the loop proof: a failed recursive call ends the loop after the match, and the walk still succeeds |
| DbWalk.WalkSetRecordsOnly | cmgd/cmgd_db.c:273-277 | one unfolding of the walk's loop, used by the loop proof: without a descent, each match costs one unit of budget and the loop moves on |
| DbWalk.ZeroBudgetRecordsNothing | cmgd/cmgd_db.c:222-223 | a zero *num_nodes records nothing and succeeds |
| DbWalk.FailsIffNoBase | cmgd/cmgd_db.c:225-235 | with a nonzero budget the walk fails exactly when the evaluation fails: for a NULL base, or a base whose wildcard query is refused |
| DbWalk.FlatSetRecordsMatches | cmgd/cmgd_db.c:241-277 | without childs_as_well, the loop records the matching set exactly, once each and in set order |
| DbWalk.FlatWalkRecordsChildren | cmgd/cmgd_db.c:219-277 | without childs_as_well and with a nonzero budget, a plain base whose wildcard query is refused fails, and any other records exactly its children |
| DbWalk.BudgetIsNotACap | cmgd/cmgd_db.c:237-274 | a budget of 1 still records every child, so the count is not bounded by the budget |
| DbWalk.NoPathsStopsAfterFirst | cmgd/cmgd_db.c:251-287 | without an xpaths array and with a budget above 1, the descent gets a NULL base, fails, and the loop stops after the first match |
| DbWalk.NoPathsBudgetOne | cmgd/cmgd_db.c:273-290 | with a budget of 1 the first descent gets budget 0 and succeeds, so the loop stops after the second match |
| DbWalk.WalkStaysBelow | cmgd/cmgd_db.c:225-290 | a walk from a plain base fails exactly when its budget is nonzero and its own wildcard query is refused; a successful one records only nodes strictly below the base |
| DbWalk.WalkInTree | cmgd/cmgd_db.c:241-249 | everything a walk records is a node of the datastore's tree |
| DbWalk.MatchesComeFirst | cmgd/cmgd_db.c:241-243 | one unfolding of the walk's loop, used by the loop proof: the current match is recorded before anything found below it |
| DbWalk.NbSetDescends | cmgd/cmgd_db.c:247-249 | one unfolding of the as-written nbnodes sequence, used by the Findings counterexample: the match at set index indx stores the schema of dnodes[indx] from this level's recordings, and after it come the recursive call's entries |
| DbWalk.SampleTreeWalk | cmgd/cmgd_db.c:207-299 | walking /rt with children records /rt/a, its child /rt/a/x, then /rt/b |
| DbWalk.NbAsWrittenMismatch | cmgd/cmgd_db.c:247-249 | on that sample the correct northbound nodes are 1, 3, 2, but the source stores 1, 3, 3 |
| CmgdDb.DbCtxt.constructor | cmgd/cmgd_db.c:69 | a static context starts zeroed: no id, not a config datastore, no tree |
| CmgdDb.DbCtxt.SetData | cmgd/cmgd_db.c:48-58 | replacing the tree writes the union member that config_db selects and keeps the context's id and kind |
| CmgdDb.DbModule.constructor | cmgd/cmgd_db.c:68-69 | no master is registered yet, and the three contexts are distinct |
| CmgdDb.DbModule.Init | cmgd/cmgd_db.c:73-100 | it aborts with nothing changed if it ran before, if cm already holds a handle, or if running_config is NULL; otherwise RUNNING wraps running_config, CANDIDATE gets a fresh empty configuration, OPERATIONAL an empty non-config tree, both in running_config's libyang context, the handles go into cm and 0 is returned |
| CmgdDb.GetHndlById | cmgd/cmgd_db.c:102-117 | CANDIDATE, RUNNING and OPERATIONAL give cm's candidate, running and oper handles respectively; any other id gives no handle |
| CmgdDb.IsConfig | cmgd/cmgd_db.c:119-128 | it is false for a null handle and is the handle's config_db flag otherwise |
| CmgdDb.GetNbConfig | cmgd/cmgd_db.c:196-205 | a configuration is returned exactly for a config datastore, and it is that context's |
| CmgdDb.Lock | cmgd/cmgd_db.c:130-168 | read-lock, write-lock and unlock return -1 exactly for a null handle, otherwise what pthread returned |
| CmgdDb.TransferDbs | cmgd/cmgd_db.c:170-194 | merge and copy return -1 exactly when either handle is null, else 0 |
| CmgdDb.SendGetDataReq | cmgd/cmgd_db.c:389-400 | it returns -1 exactly for a null handle, else 0 |
| CmgdDb.HandlesAfterInit | cmgd/cmgd_db.c:73-128 | after init, exactly the three ids have handles, each carrying its own id; exactly RUNNING and CANDIDATE are config datastores; the two configurations are distinct |
| CmgdDb.WalkArrays.Record | cmgd/cmgd_db.c:241-264 | recording a match writes slot k of each passed array, and only that slot |
| CmgdDb.FillAt | cmgd/cmgd_db.c:241-289 | after a fill, each slot holds its recorded node, xpath and northbound node; slots outside the run keep their content |
| CmgdDb.FillTrans | cmgd/cmgd_db.c:281-289 | the recursive call's records, made from \*num_nodes on, extend the caller's run |
| CmgdDb.WalkDbNodes | cmgd/cmgd_db.c:207-299 | NULL num_nodes gives -1; zero gives 0 with nothing changed; a failed evaluation gives -1 with the arrays untouched; otherwise 0, \*num_nodes is the number recorded, the arrays hold Walk's records from the offset on, iter_fn sees them in order, and the base buffer ends as remove(append(base)) |
| CmgdDb.WalkLoop | cmgd/cmgd_db.c:237-298 | the loop records exactly the walk's sequence for the matching set, counts it in \*num_nodes and calls iter_fn on each recorded node in order |
| CmgdDb.WalkPass | cmgd/cmgd_db.c:241-291 | one pass keeps the loop's record, count and visit invariants |
| CmgdDb.WalkMatch | cmgd/cmgd_db.c:241-290 | one match is recorded at \*num_nodes, visited, and followed by its descendants when the descent applies |
| CmgdDb.WalkChildren | cmgd/cmgd_db.c:279-290 | the recursive call writes from the slot after the match; a failure breaks the loop, a success adds its count |
| CmgdDb.StripCurrent | cmgd/cmgd_db.c:313-314 | a leading "./" is dropped and any other xpath is kept |
| CmgdDb.LookupDataNodes | cmgd/cmgd_db.c:301-321 | a null handle or NULL num_nodes gives -1 with nothing written; a zero *num_nodes gives 0 with nothing written; otherwise the walk without iter_fn runs from the stripped xpath into slot 0 on; -1 is returned, with nothing written, exactly when the base's wildcard query is refused, and otherwise 0 with the walk's count and records |
| CmgdDb.DeletedSound | cmgd/cmgd_db.c:347-359 | after delete the tree is well formed; the node, its subtree and the dependant's subtree are gone; every other node survives |
| CmgdDb.DeleteDataNodes | cmgd/cmgd_db.c:323-360 | a null handle gives -1; an absent xpath gives NB_ERR_NOT_FOUND with the tree unchanged; otherwise the dependant's subtree and then the node's are freed and 0 is returned; the context's id and kind stay |
| CmgdDb.IterData | cmgd/cmgd_db.c:362-387 | a null handle gives -1; otherwise the walk with children runs from the base into 128-slot arrays, returns -1 or 0 as the walk fails or succeeds, and passes each recorded node to iter_fn |
| LogRefs.ShiftIsDiv | lib/ferr.c:69-74 | k shifts of five bits divide the id by 32 to the k |
| LogRefs.TopBits | lib/ferr.c:58-74 | after six shifts of a 32-bit id only its top two bits remain |
| LogRefs.LeadIndex | lib/ferr.c:75-76 | the lead symbol's index lies in the upper half of the alphabet; its low two bits are id>>30 and the next two are the popcount mod 4 |
| LogRefs.Prefix | lib/ferr.c:67-76 | the prefix is 8 characters with NUL at index 7 |
| LogRefs.LridAlphabet | lib/ferr.c:50 | the 32 symbols of _lrid are strictly increasing, so none repeats |
| LogRefs.JoinDigits | lib/ferr.c:69-74 | the five-bit digits, most significant first, reassemble the id |
| LogRefs.DecodePrefix | lib/ferr.c:67-76 | every written prefix decodes back to its id |
| LogRefs.PrefixInjective | lib/ferr.c:67-76 | two 32-bit ids with the same prefix are equal |
| LogRefs.PrefixSymbols | lib/ferr.c:67-76 | the lead symbol comes from the upper half of the alphabet, and the six digits come from the alphabet |
| LogRefs.PrefixFields | lib/ferr.c:69-76 | index i in 1..6 holds the alphabet digit of id bits 5(6-i)+4..5(6-i), and index 0 holds _lrid[16 + 4(popcount mod 4) + (id>>30)] |
| LogRefs.LeadOf | lib/ferr.c:75-76 | the source's expression on the shifted id gives the lead index |
| LogRefs.RefId | lib/ferr.c:63-64 | the hashed id fits 32 bits |
| LogRefs.Registry.constructor | lib/ferr.c:44-45 | the list starts empty, with the tail pointer at its head |
| LogRefs.Registry.PutDigit | lib/ferr.c:69-74 | one step writes the symbol of the low five bits at its position, changes nothing else, and shifts the id; after d steps that symbol is the id's digit d |
| LogRefs.Registry.WritePrefix | lib/ferr.c:67-76 | the backwards writes leave exactly Prefix(id) in the first 8 bytes and keep the rest of the buffer |
| LogRefs.Registry.Link | lib/ferr.c:52-53 | the block is appended at the tail, insertion order is kept, and the tail moves to the block's next field |
| LogRefs.Registry.AssignId | lib/ferr.c:56-76 | a reference gets the hashed id and that id's prefix; its buffer past byte 8 is kept |
| LogRefs.Registry.AssignAt | lib/ferr.c:56-76 | one turn encodes entry i unless it is null, keeps the earlier entries encoded, and leaves every buffer past byte 8 alone |
| LogRefs.Registry.AssignIds | lib/ferr.c:55-77 | every non-null reference of the block is encoded, and every reference's buffer past byte 8 is kept |
| LogRefs.Registry.Add | lib/ferr.c:47-78 | the block is appended at the tail with its next field untouched, every non-null reference carries its id and prefix, and every buffer past byte 8 is kept |
| ErrorInfo.Ferr.constructor | lib/ferr.c:123-124 | a new record is zeroed |
| ErrorInfo.ErrorSlot.GetLast | lib/ferr.c:102-108 | the record is returned exactly when there is one and it carries a reference |
| ErrorInfo.ErrorSlot.Clear | lib/ferr.c:110-116 | clearing returns ferr_ok, drops only the reference, and ferr_get_last then returns NULL |
| ErrorInfo.ErrorSlot.SetVa | lib/ferr.c:118-140 | it returns -1 and reuses the thread's record, or allocates one; it stores ref, errno_val, the path name ("" for NULL) and the message; the record is visible to ferr_get_last exactly when ref is non-null |
| ErrorInfo.ErrorSlot.SetInternal | lib/ferr.c:142-150 | it stores ref, errno 0, an empty path name and the message formatted from ref's format string, and returns -1 |
| ErrorInfo.ErrorSlot.SetInternalExt | lib/ferr.c:152-161 | as SetInternal, with the given path name and errno value |
| ErrorInfo.ErrorSlot.PrintError | lib/ferr.c:163-184 | the printed line is the clipped message with its first "$ERR" replaced by the last error's message, or by "(no error?)" when there is none |
| ErrorInfo.ClipInto | lib/ferr.c:166-172 | the 512-byte buffer holds the message clipped to 511 characters, NUL-terminated |
| ErrorInfo.Clip | lib/ferr.c:171 | the clipped text is a prefix of the message, NUL-free and shorter than 512 |
| ErrorInfo.CStrCut | lib/ferr.c:178 | writing a NUL after a text cuts the C string there |
| ErrorInfo.FindSub | lib/ferr.c:174 | strstr gives the first position where the marker matches, and none when it matches nowhere |
| ErrorInfo.ErrorText | lib/ferr.c:174-183 | a message without "$ERR" is printed unchanged, followed by a newline |
| ErrorInfo.CutAt | lib/ferr.c:178-182 | the NUL written at the marker leaves the head as tmpmsg and the text after the marker as replacepos |
| ErrorInfo.ErrorTextRestores | lib/ferr.c:174-183 | the output keeps the text before the first "$ERR", holds the message right after it, and is one newline longer than the text with the marker replaced; putting the marker back gives the original text; no marker occurs before the splice point |
| StaticVty.Rejection | staticd/static_vty.c:84-151 | the command is refused exactly when the combination is unacceptable: a prefix that does not parse, a bad IPv4 mask or IPv6 source, pm or bfd without a gateway, bfd with a route group, or onlink with bfd multi-hop; each named refusal implies its own cause |
| StaticVty.NexthopType | staticd/static_vty.c:152-166 | the type has a gateway exactly when one is given, an interface exactly when one is given, and is IPv6 exactly for a gateway outside AFI_IP |
| StaticVty.NexthopTypeDetermined | staticd/static_vty.c:152-166 | those three properties fix the nexthop type |
| StaticVty.Distance | staticd/static_vty.c:168-172 | the distance fits a uint8_t and is ZEBRA_STATIC_DISTANCE_DEFAULT when no distance is given |
| StaticVty.Tag | staticd/static_vty.c:174-176 | the tag fits 32 bits and is 0 when absent |
| StaticVty.TableId | staticd/static_vty.c:178-180 | the table id fits 32 bits and is 0 when absent |
| StaticVty.SlashIndex | staticd/static_vty.c:324 | the index found holds the first '/' of the string, and none is found only when there is no '/' |
| StaticVty.Strsep | staticd/static_vty.c:324 | one strsep step splits at the first slash into a slash-free token and a shorter rest, or returns the whole string when no slash is left |
| StaticVty.SplitJoin | staticd/static_vty.c:324-335 | joining the tokens strsep yields rebuilds the label string, and no token holds a slash |
| StaticVty.JoinSplit | staticd/static_vty.c:324-335 | slash-free tokens come back unchanged from their join |
| StaticVty.LabelChangeAt | staticd/static_vty.c:324-335 | label change i sets segment i under stack id (start + i) mod 256, one change per segment |
| StaticVty.LabelXpaths | staticd/static_vty.c:324-335 | every label change addresses an entry of the label list |
| StaticVty.EnqueueLeaves | staticd/static_vty.c:247-308 | it queues the blackhole, onlink, color and pm leaves as the nexthop type selects them |
| StaticVty.EnqueueLabels | staticd/static_vty.c:309-342 | the label list is destroyed, then one entry is set per strsep token |
| StaticVty.LabelStep | staticd/static_vty.c:324-335 | one strsep step emits the first token's entry and leaves the rest to the remainder |
| StaticVty.EnqueueBfd | staticd/static_vty.c:344-410 | it queues the BFD and route-group leaves, none of them for a source route |
| StaticVty.StaticRouteLeak | staticd/static_vty.c:46-446 | a refused combination gives CMD_WARNING_CONFIG_FAILED with nothing queued; an accepted add queues the replacement destroy and the route's changes and applies them at the path-list xpath; a negate of an absent nexthop gives CMD_SUCCESS with nothing queued; a negate of a present one queues exactly one destroy and applies it there |
| StaticVty.AddRoute | staticd/static_vty.c:185-411 | an add first destroys the same nexthop under another distance, if the candidate holds one, then queues the route |
| StaticVty.EnqueueRoute | staticd/static_vty.c:214-411 | the route's changes are queued in source order, from the path-list creation to the group leaves |
| StaticVty.NexthopLeaves | staticd/static_vty.c:247-308 | an add sets the blackhole-type leaf once exactly for a blackhole nexthop, onlink once exactly for gateway-plus-interface types, color once exactly for a gateway type given a color, and pm once exactly for gateway types |
| StaticVty.LeafChangesCount | staticd/static_vty.c:247-308 | the nexthop leaf block sets each such leaf at most once, as the type selects |
| StaticVty.LabelsInOrder | staticd/static_vty.c:309-342 | the add destroys the label list and sets segment i of the label string under stack id i mod 256 |
| StaticVty.SourceRouteHasNoBfd | staticd/static_vty.c:344-410 | a route with a source prefix queues nothing under the BFD container |
| StaticVty.RouteChangesUnderPrefix | staticd/static_vty.c:214-411 | every queued change of an add lies under the xpath the changes are applied relative to |
| StaticVty.BlackholeRoundTrip | staticd/static_vty.c:249-275 | the flags reject, blackhole and Null0 map to blackhole types that static_config writes back as the same word |
| StaticVty.NoFlagIsNull0 | staticd/static_vty.c:268-271 | no flag gives the Null0 blackhole |
| StaticVty.Null0Substitution | staticd/static_vty.c:788-791 | an interface spelled Null0 in any case becomes the Null0 flag with no interface; any other interface is kept |
| StaticVty.RouteCommand | staticd/static_vty.c:783-806 | a missing vrf is VRF_DEFAULT_NAME; the nexthop vrf defaults to the route vrf; the Null0 substitution applies; the BFD source is the given address or else auto; IPv4 passes the mask and no source prefix, IPv6 the source prefix and no mask |
| StaticVty.VrfRouteCommand | staticd/static_vty.c:855-885 | with no vrf node the command is refused; otherwise the node's vrf name replaces both the route vrf and the default nexthop vrf |
| StaticVty.StaticRoute | staticd/static_vty.c:447-468 | a missing vrf is the default vrf and is also the nexthop vrf; onlink, color and pm are off; the other arguments pass through |
| StaticVty.Null0InterfaceIsBlackhole | staticd/static_vty.c:933-956 | `ip route P Null0` without a gateway configures a blackhole nexthop whose type leaf is set to null |
| ConfigWrite.SuffixRoundTrip | staticd/static_vty.c:543-583 | the written tag, distance, label, nexthop-vrf, table, onlink, pm and color options parse back as the nexthop's settings; the table is lost only when the vrf does not use the main table |
| ConfigWrite.StaticConfig | staticd/static_vty.c:470-612 | no table writes nothing and returns 0; otherwise one line per nexthop in table order, and 1 exactly when a line was written |
| VrrpDebug.Node2Mode | vrrpd/vrrp_debug.c:68 | the mode always holds the terminal bit, and the configuration bit exactly inside the configuration node |
| VrrpDebug.WriteMode | vrrpd/vrrp_debug.c:47-50 | the helper tests DEBUG_MODE_CONF for configuration output and DEBUG_MODE_ALL otherwise |
| VrrpDebug.Emitted | vrrpd/vrrp_debug.c:52-54 | no more lines are written than there are records |
| VrrpDebug.EmittedMembers | vrrpd/vrrp_debug.c:52-54 | a line is written exactly when some record carrying it passes the mode check |
| VrrpDebug.EmittedAll | vrrpd/vrrp_debug.c:52-54 | with every record passing the check, all lines are written in array order |
| VrrpDebug.EmittedNone | vrrpd/vrrp_debug.c:52-54 | with no record passing the check, as for the initial table, nothing is written |
| VrrpDebug.SetFromConfigShows | vrrpd/vrrp_debug.c:64-84 | turning a debug on in the configuration node makes it appear in both the status and configuration listings |
| VrrpDebug.ClearFromConfigHides | vrrpd/vrrp_debug.c:64-84 | turning it off in the configuration node hides it from both |
| VrrpDebug.TerminalSetKeepsConfig | vrrpd/vrrp_debug.c:64-84 | outside the configuration node the configuration listing is unaffected, and turning on shows it in the status listing |
| VrrpDebug.Debug.constructor | vrrpd/vrrp_debug.c:16-22 | a record starts with flags 0 and its command and description |
| VrrpDebug.VrrpDebugs.constructor | vrrpd/vrrp_debug.c:16-42 | all seven records start at 0, and conflines[i] is the command of debugs[i] |
| VrrpDebug.VrrpDebugs.Set | vrrpd/vrrp_debug.c:64-84 | exactly the selected records get the node's mode set or cleared as onoff says; all others keep their flags |
| VrrpDebug.VrrpDebugs.SetIf | vrrpd/vrrp_debug.c:70-83 | one guarded DEBUG_MODE_SET changes the record only when selected |
| VrrpDebug.VrrpDebugs.ConfigWriteHelper | vrrpd/vrrp_debug.c:45-57 | it writes conflines[i] exactly for the records passing the check, in array order, and returns 0 |
| VrrpDebug.VrrpDebugs.StatusWrite | vrrpd/vrrp_debug.c:59-62 | the status listing uses DEBUG_MODE_ALL and returns 0 |

## Left out

- libyang and the northbound layer are abstract: a tree is a map from path to node (children, height, schema id). `lyd_find_xpath` is a children-of-path oracle. Which xpaths fail to evaluate is given with the tree, as a set of refused query strings shared by the three datastores (they share one libyang context); the model does not say which strings libyang refuses. A tree is well formed only when no node's own children query is refused. `lyd_free_tree` is subtree removal, and `lyd_path` is the node's path. `nb_node_find` and the `get_dependant_xpath` callback are replaced by the dependant path (None without the callback). A NULL `nb_node` in delete is not modelled.
- The xpath buffers written by `lyd_path` are modelled as the path itself. Who allocates them, and their freeing in `cmgd_db_iter_data`, is not modelled.
- CmgdDb.WalkDbNodes: the base xpath is a value, so the model does not capture a possible heap overflow. A recursive call's base is `xpaths[*num_nodes]`. When that slot was NULL, `lyd_path(..., NULL, 0)` has just allocated it at the path's own size (cmgd_db.c:259-261). The call then appends "/*" in place (cmgd_db.c:226). The append's bound check presumes a CMGD_MAX_XPATH_LEN buffer (cmgd_db.h:108), so it can write up to two characters past that allocation. Under `cmgd_db_iter_data`, whose xpaths array starts zeroed, every descent starts from such a buffer. No member exhibits this overflow.
- CmgdDb.DeleteDataNodes: requires that the dependant's subtree not contain the node. The source accepts that input: it frees `dep_dnode` and then `dnode`, which was freed with it (cmgd_db.c:354-357). That double free is not modelled.
- The caller's arrays must have room for what the walk records (`Fits`). The source does not check this, and writing past the end is not modelled. `dnodes` must be non-NULL, because the walk dereferences it.
- `cmgd_db_lookup_data_nodes` copies the xpath with `strncpy` into `CMGD_MAX_XPATH_LEN` bytes. The model requires a shorter xpath, since a longer one would be left unterminated.
- The `pthread_rwlock_*` calls are a parameter; only the null-handle return is modelled. The pthread key of lib/ferr.c is one `ErrorSlot`, the current thread's.
- Commit history, rollback, load/save, dump and `cmgd_db_find_data_node_by_xpath` are declared without bodies and are not modelled. Deep copy and merge are not modelled either, because their bodies are stubs that only check their handles. `cmgd_db_status_write` is vty output, not modelled.
- `jhash` is a function parameter. `vsnprintf`, with its argument list, is a parameter (`format`) for `ferr_set_internal*` and an already formatted string for `vty_print_error`.
- Error record buffers: the sizes of `pathname` and `message` come from lib/ferr.h, which is not part of this model. Their truncation by `snprintf`/`vsnprintf` is not modelled. For the same reason a reference's prefix buffer is only required to be at least 8 bytes long.
- The `err` argument of `ferr_get_last` is ignored, as in the source.
- The message `vty_print_error` formats is taken to hold no embedded NUL.
- `vty_out` is modelled as returned strings or lines, and `nb_cli_enqueue_change` as appending to the vty's change queue. `nb_cli_apply_changes` is given its result (`applyRet`).
- The xpath format macros of staticd are modelled as structured values (`Xpath`), with `strlcat` as a `Sub` step. Truncation to `XPATH_MAXLEN` is not modelled.
- `str2prefix`, `inet_aton`, `prefix2str`, `apply_mask`, `atoi`, `strtoul` and `atol` are foreign. Their results arrive as a `Parsed` value. `static_route_leak` never reads `buf_src_prefix` without a source, and the model formats nothing then.
- `yang_dnode_get` on the candidate, followed by `yang_get_subtree_with_no_sibling` and `yang_dnode_get_path`, is one map from lookup xpath to the reported path. The values of `static_get_nh_type` and of `yang_afi_safi_value2identity` are modelled as the enumerations themselves.
- `static_config`: the route table walk, `srcdest_rnode2str`, `inet_ntop`, `mpls_label2str` and the BFD session getters are external. Entries arrive as flattened (destination, path, nexthop) triples. The bfd and group words are not written back by the model, and the read-back covers the options from tag to color.
- The blackhole-type enumeration is taken to be numbered as the YANG `blackhole-type` enumeration it is read from.
- The `..._blackhole_vrf` wrappers are `StaticRoute` with the vrf node's name; they have no member of their own. `staticd_route_group_bfd`, the show commands, `debug_staticd`, `staticd_config_write` and `static_vty_init` are CLI plumbing and are not modelled.
- `vrrp_debug_init` (`debug_install`) and the `ifp`/`vrid` arguments of `vrrp_debug_set`, which the body ignores, are not modelled.
- StaticVty.LabelChanges: `label_stack_id` is a `uint8_t`, so the stack id wraps modulo 256. This is modelled, but no lemma states anything about more than 256 labels.
- DataTree.WF: every node path must be a plain path of 3 to 1021 characters ending in neither '/' nor '*'. The source sets no such limit. For a node path of 1022 characters or more, the in-place append adds no wildcard (cmgd_db.h:108). A descent from that node would then query the node itself and record it again, instead of its children. The model does not capture that case.
- VrrpDebug.VrrpDebugs.Set: the flags are `bv32`; `DEBUG_MODE_SET` is modelled by `ModeSet`, whose meaning is given by the lemmas about it rather than by an ensures of its own.

## Findings

| source | as written | input that shows it | evidently intended | confidence | as-written member | corrected member |
|---|---|---|---|---|---|---|
| cmgd/cmgd_db.c:247-249 | `nbnodes[*num_nodes]` takes the schema of `dnodes[indx]`, indexed by the set position, instead of the match just stored at `dnodes[*num_nodes]` | a walk with children of `/rt`, whose children are `/rt/a` (with child `/rt/a/x`) and `/rt/b`: the nodes recorded are `/rt/a`, `/rt/a/x`, `/rt/b` with northbound nodes 1, 3, 2, but the stored entries are 1, 3, 3; the `nb` argument iter_fn gets (cmgd_db.c:269) reads the same slot and inherits the wrong value | each `nbnodes` slot holds the northbound node of the node recorded in the same `dnodes` slot | not executed | DbWalk.NbAsWrittenMismatch | CmgdDb.FillAt |
