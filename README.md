# IPManager (Lab IP Manager) in Dafny

Lab IP Manager is a browser extension that keeps a document of lab
environments. Each environment has an ordered list of host records: name,
address, optional port and RDP user, tags, notes, a pinned flag and health
fields. This project models the deterministic rules inside its three
scripts and proves what they promise.

The popup (`popup.js`) covers:
- the `IPManager` object and its document edits: saving a host from the add/edit form, deleting a host, appending an environment;
- the environment lookups;
- the filtered and sorted host list;
- the strings its host actions copy or open;
- its health sweep;
- the backup import test.

The background script (`background.js`) covers:
- the dotted-quad check behind the context-menu entry;
- the reachability prober with its fixed fallback chain;
- the periodic sweep over all stored hosts;
- the address-bar keyword's suggestions and entry resolution.

The options page (`options.js`) covers:
- the `OptionsManager` settings object: load by merge, collect from the form with fallbacks, reset;
- the statistics over the stored document;
- its import test.

Modules:
- `Js` (js.dfy): the JavaScript built-ins the scripts rely on, with the lemmas the rest of the model needs. These are `trim`, ASCII `toLowerCase`, `includes`, `split`/`join`, `filter`, `parseInt`, number-to-string, and JSON truthiness.
- `Hosts` (hosts.dfy): host records, environments, the document, flattening, the `find`/`findIndex` lookups, and the three list edits (`push`, `splice`, index assignment) with their effect on the set of ids.
- `SettingsStore` (settings.dfy): the settings record, both sets of defaults, and the `{ ...base, ...stored }` merge.
- `Forms` (form.dfy): the host record built from the add/edit form, and the form filled from a record.
- `Store` (store.dfy): each popup document edit as a function from the old environment list to the new one, with its effect proved.
- `HostQuery` (query.dfy): `filterItems` as a filter and a stable insertion sort.
- `Launch` (launch.dfy): the copy text, web URL, SSH command and RDP command, each with a reader that recovers what was written.
- `Backup` (backup.dfy): the import acceptance test shared by popup and options page.
- `Options` (options.dfy): the `OptionsManager` class and `loadDataStats`.
- `Background` (background.js's rules, background.dfy).
- `Popup` (popup.dfy): the `IPManager` class, whose methods are proved to compute the `Store`, `HostQuery` and `Backup` functions.

Storage, the network, the clock and dialogs become parameters:
- the stored document or settings object is an `Option` argument;
- each probe attempt's outcome is an `Attempt` (reached after some milliseconds, or failed);
- each popup probe's reply is a `PopupReply`;
- timestamps are a sequence of integers;
- a fresh id from `generateId` is a `freshId` argument;
- the answers to `prompt` and `confirm` are arguments.

## Model

| member | source | states |
|---|---|---|
| Popup.IPManager.constructor | ipManager/popup.js:3-24 | a new popup holds one empty `default` environment, version 1, the popup defaults with health probing on, an empty list and no active tag |
| Popup.IPManager.LoadData | ipManager/popup.js:42-51 | a stored document replaces the current one; with nothing stored the state is unchanged |
| Popup.IPManager.LoadSettings | ipManager/popup.js:61-71 | the stored keys are merged over the current settings; nothing else changes |
| SettingsStore.Merge | ipManager/popup.js:65 | each key present in the stored object wins and each absent key keeps the base value |
| SettingsStore.SaveThenLoad | ipManager/options.js:35-37 | settings written with every key load back unchanged over any base |
| SettingsStore.MergeIdempotent | ipManager/options.js:28 | merging the same stored object twice equals merging it once |
| SettingsStore.DefaultsDifferOnlyInProbe | ipManager/popup.js:15-22 | loading the same stored settings over the popup's defaults and over the options page's (options.js:4-11) gives the same settings except for health probing, which differs exactly when the stored object lacks that key: then the popup probes and the options page does not |
| Forms.FormHost | ipManager/popup.js:585-594 | the record built from the form has the trimmed name, address and notes, the RDP user trimmed or none exactly when it trims to empty, the parsed port or none when the port field is empty, the parsed tags, the form's environment and pinned flag, and no health fields |
| Forms.ParseTags | ipManager/popup.js:591 | the tags are the comma pieces of the field, trimmed, with the empty ones dropped, in order; each is non-empty, trimmed and holds no comma |
| Forms.NonEmpty | ipManager/popup.js:591 | every piece `filter(t => t)` keeps is non-empty and one of the input's, and every non-empty piece is kept |
| Forms.TagsRoundTrip | ipManager/popup.js:553 | tags joined with `', '` for the edit form split back into the same tags |
| Forms.EditFormRoundTrip | ipManager/popup.js:542-559 | filling the form from a record the form itself built and saving it gives the same record, except that a falsy port becomes absent |
| Forms.ResaveStored | ipManager/popup.js:542-594 | re-saving any stored record whose fields look as the form leaves them keeps every field the form shows, drops a falsy port, and clears the four health fields |
| Forms.FormHostValid | ipManager/popup.js:585-599 | the form's record is refused exactly when the trimmed name or the trimmed address is empty |
| Forms.SaveFormRejectsBlank | ipManager/popup.js:596-599 | a form with a blank name or address saves nothing, in either mode |
| Popup.IPManager.SaveHost | ipManager/popup.js:581-632 | the document becomes exactly `Store.SavedEnvs` of the old environments for the record the form builds |
| Popup.SaveIntoEnvs | ipManager/popup.js:596-632 | the validation, target lookup, add and edit branches together compute `Store.SavedEnvs` |
| Popup.FindHost | ipManager/popup.js:609-617 | the scan over environments with `findIndex`, stopping at the first hit, finds exactly `Hosts.LocateHost` |
| Store.TargetEnv | ipManager/popup.js:601 | the target is the first environment with the record's environment id; with no match it is the first environment; there is none only when there are no environments |
| Store.SavedEnvs | ipManager/popup.js:596-632 | saving keeps the number of environments and each one's id and name; defined by its body and characterised by `SaveRejectsBlank`, `SaveAddEffect`, `SaveEditMissing`, `SaveEditMove` and `SaveEditInPlace` |
| Store.SaveRejectsBlank | ipManager/popup.js:596-599 | a record with an empty name or address leaves every environment unchanged |
| Store.SaveAddEffect | ipManager/popup.js:601-605 | add mode appends exactly one record, with the fresh id, to the end of the target environment; every other environment is unchanged; the id bag gains the fresh id, the host count grows by one, and unique ids stay unique when the id is fresh |
| Store.SaveEditMissing | ipManager/popup.js:606-626 | editing an id no environment holds changes nothing |
| Store.SaveEditMove | ipManager/popup.js:618-626 | moving to another environment splices the record out of the first environment holding the id and pushes it, keeping its id, onto the target; other environments are unchanged; the host count and the id bag are unchanged; with unique ids the id still occurs exactly once |
| Store.SaveEditInPlace | ipManager/popup.js:627-630 | within the same environment the record at the found index is replaced; that environment keeps its id and name, and the list length, all other positions and all other environments are unchanged |
| Popup.IPManager.DeleteHost | ipManager/popup.js:561-579 | when confirmed, the document becomes `Store.DeletedEnvs` of the old environments; otherwise nothing changes |
| Store.DeleteEffect | ipManager/popup.js:567-577 | deleting removes exactly the first record with the id from the first environment holding it; the remaining order and the other environments are kept; the id bag loses one copy of the id |
| Store.DeletedEnvs | ipManager/popup.js:567-577 | deleting keeps the number of environments and each one's id and name; defined by its body and characterised by `DeleteEffect`, `DeleteAbsent` and `DeleteTwice` |
| Store.DeleteAbsent | ipManager/popup.js:567-577 | deleting an absent id changes nothing |
| Store.DeleteTwice | ipManager/popup.js:561-579 | with unique ids the id is gone after one delete, and a second delete changes nothing |
| Popup.IPManager.AddNewEnvironment | ipManager/popup.js:718-732 | the document becomes `Store.AddedEnvs` for the prompt's answer |
| Store.AddedEnvsKeepsHosts | ipManager/popup.js:719-726 | an answer whose trim is non-empty appends one empty environment with the fresh id and the trimmed name; a cancelled or blank answer changes nothing; existing environments and all hosts are kept |
| Store.AddedEnvs | ipManager/popup.js:719-726 | the existing environments stay as they were, first and in order, with at most one more after them; defined by its body and characterised by `AddedEnvsKeepsHosts` |
| Store.CurrentEnv | ipManager/popup.js:201-203 | the first environment carrying the selected id; the first environment when none carries it; none only when there are no environments |
| Store.EnvironmentName | ipManager/popup.js:205-208 | the name of the first environment with the id, or `Default` when none has it |
| Popup.IPManager.FilterItems | ipManager/popup.js:210-245 | the list becomes the query of the document for the search text, the environment selector and the active tags |
| HostQuery.QueryMembers | ipManager/popup.js:214-238 | an item is listed exactly when it comes from some environment and meets the environment, search and tag conditions, and it is listed as often as it occurs |
| HostQuery.Query | ipManager/popup.js:210-245 | the listed items are in the popup's display order; defined by its body and characterised by `QueryMembers` and `QueryOrdered` |
| HostQuery.QueryOrdered | ipManager/popup.js:241-245 | every pinned item precedes every unpinned one, and within each group names are in order |
| HostQuery.SortItemsCorrect | ipManager/popup.js:241-245 | the sort returns an ordered permutation of its input |
| HostQuery.SortItems | ipManager/popup.js:241-245 | the sort keeps the number of items; defined by its body and characterised by `SortItemsCorrect` |
| HostQuery.FlatItemsMembers | ipManager/popup.js:214-220 | the flattened items are exactly the records of every environment, each tagged with its environment's id |
| HostQuery.FlatItemsHosts | ipManager/popup.js:214-220 | the flattened items carry the environments' records in order |
| HostQuery.NameLeTotal | ipManager/popup.js:244 | any two names are ordered one way or the other |
| HostQuery.NameLeTrans | ipManager/popup.js:244 | the name order is transitive |
| Popup.IPManager.ToggleTag | ipManager/popup.js:301-308 | a click on a chip makes the active tags `Toggled` (that tag off when active, on otherwise), then refreshes the list |
| Popup.Toggled | ipManager/popup.js:302-306 | the clicked tag's membership flips and every other tag keeps its state |
| Popup.ToggleTwice | ipManager/popup.js:301-308 | two clicks on the same chip, each `Toggled`, restore the active tags |
| Launch.CopyTextRoundTrip | ipManager/popup.js:383-388 | the copy text reads back as the address, the truthy port and the non-empty RDP user |
| Launch.CopyText | ipManager/popup.js:383-388 | the copy text begins with the address; defined by its body and characterised by `CopyTextRoundTrip` |
| Launch.WebUrlRoundTrip | ipManager/popup.js:421-425 | the web URL is `http://` and the address, with `:port` only for a truthy port |
| Launch.WebUrl | ipManager/popup.js:421-425 | the URL is `http://` followed by the address; defined by its body and characterised by `WebUrlRoundTrip` |
| Launch.SshCommandRoundTrip | ipManager/popup.js:427-437 | the SSH command reads back as the default user (or `admin`), the address and the first truthy port of record, settings and 22 |
| Launch.SshCommand | ipManager/popup.js:427-437 | the command begins `ssh user@ip -p `; defined by its body and characterised by `SshCommandRoundTrip` |
| Launch.RdpCommandRoundTrip | ipManager/popup.js:439-451 | the RDP command reads back as the address and the first truthy port of record, settings and 3389 |
| Launch.RdpCommand | ipManager/popup.js:439-451 | the command begins `mstsc /v:ip:`; defined by its body and characterised by `RdpCommandRoundTrip` |
| Launch.PortChain | ipManager/popup.js:429 | the port chosen is never zero; it is the record's port when set, else the configured port when non-zero, else the protocol's built-in port |
| Launch.SshUser | ipManager/popup.js:428 | the SSH user is the configured user when that is non-empty, else `admin` |
| Popup.IPManager.PerformHealthChecks | ipManager/popup.js:487-531 | with probing off nothing changes; otherwise every record, in flattened order, is shown as checking and then gets its reply's outcome; the version and list shapes are kept |
| Popup.CheckAll | ipManager/popup.js:490-526 | every record gets the outcome of the reply at its flattened position, and a failed send does not stop the loop |
| Popup.CheckList | ipManager/popup.js:499-526 | each record of a list is marked as checking, then set online with the reply's response time on success and offline otherwise |
| Popup.PopupProbed | ipManager/popup.js:511-524 | online exactly when a response arrived with `success`; the response time changes only then; the time of the check is recorded; nothing else changes |
| Popup.ProbedAfterMarking | ipManager/popup.js:502-524 | marking a record as checking does not affect where its probe ends |
| Popup.IPManager.HandleFileImport | ipManager/popup.js:680-704 | the document is replaced by the imported one exactly when the import test accepts the parsed value |
| Backup.ImportDecision | ipManager/options.js:176-188 | a parse failure or `null` is a parse error; a value is accepted exactly when it is an object with truthy `version` and `envs`; otherwise the format is invalid |
| Backup.ImportAcceptsDocument | ipManager/options.js:179-182 | an object with a non-zero numeric version and an array of environments is stored as it is |
| Backup.ImportRejectsLeaveStore | ipManager/options.js:183-188 | a rejected import leaves the stored document untouched |
| Background.ContextMenuAction | ipManager/background.js:23-58 | for this extension's entry, the trimmed selection itself is stored with the tab's URL exactly when it passes the address check; otherwise a notification is shown; other entries are ignored |
| Background.IPv4PatternSplit | ipManager/background.js:29 | the address pattern accepts a text exactly when it is four dot-separated groups of one to three digits, leading zeros allowed, each at most 255 |
| Background.IPv4Pattern | ipManager/background.js:29 | an accepted text is 7 to 15 characters long; defined by its body (the regular expression's alternatives) and characterised by `IPv4PatternSplit`, `PatternIsDotted` and `DottedIsPattern` |
| Background.PatternIsDotted | ipManager/background.js:29 | a text the pattern accepts splits on dots into four valid groups |
| Background.DottedIsPattern | ipManager/background.js:29 | four valid groups joined by dots match the pattern |
| Background.OctetNoDot | ipManager/background.js:29 | a group the pattern accepts is a valid decimal group and holds no dot |
| Background.OctetPatternValid | ipManager/background.js:29 | the pattern's three alternatives for one group accept exactly the decimal groups up to 255 |
| Background.DottedQuadAccepted | ipManager/background.js:29 | four numbers up to 255, written in decimal and joined by dots, pass the check |
| Background.PerformHealthCheck | ipManager/background.js:169-242 | the prober sends `HEAD` requests to `http://ip`, `https://ip`, then `http://ip:p` for ports 22, 23, 80, 443, 3389, 8080 and 8443 in that order, with 3000, 3000 and 2000 ms timeouts, stops after the first that reaches the host, and returns the specified result; the number of requests is `AttemptsMade` and their timeouts add up to at most 20 s |
| Background.TryPorts | ipManager/background.js:209-241 | once http and https failed, the port requests follow in order, the first port that answers decides, and `all-failed` results when none does |
| Background.AttemptsMadeStops | ipManager/background.js:169-241 | every request before the last one failed, the probe succeeds exactly when the last request reached the host, and a failure means all nine were sent |
| Background.ProbeSpecAt | ipManager/background.js:183-230 | when attempt `i` is the first to reach the host, the result is a success with that attempt's time and method after `i + 1` requests |
| Background.ProbeSpec | ipManager/background.js:169-241 | a probe succeeds exactly when some attempt reached the host, and success, online status and a response time go together; defined by its body and characterised by `ProbeSpecAt`, `ProbeAllFailed`, `ProbeSuccess` and `AttemptsMadeStops` |
| Background.ProbeAllFailed | ipManager/background.js:236-241 | the result is exactly failure, offline, `all-failed` and no response time when all nine attempts fail |
| Background.ProbeSuccess | ipManager/background.js:183-230 | a success is online with the elapsed time of the first attempt that reached the host, and its method is `http`, `https` or `port-p` for that attempt |
| Background.MethodLabelsDistinct | ipManager/background.js:183-230 | different attempts report different methods |
| Background.PortLabelsDistinct | ipManager/background.js:229 | different ports give different `port-p` labels |
| Background.ProbeTimeBound | ipManager/background.js:176-215 | the timeouts of the first n attempts add up to at most 3000 + 3000 + 7 x 2000 ms |
| Background.TriedTimeouts | ipManager/background.js:176-215 | the requests of the first attempts, in order, carry exactly those attempts' timeouts |
| Background.TriedWithinBudget | ipManager/background.js:176-215 | any prefix of the chain that was sent has timeouts summing to at most 20000 ms |
| Background.PerformHealthChecks | ipManager/background.js:244-285 | with no stored document nothing is saved; otherwise every record, in flattened order, gets its probe's outcome, failures do not stop the sweep, and the saved document keeps its version and list shapes |
| Background.SweepList | ipManager/background.js:259-278 | each record of a list gets the outcome of the observation at its position |
| Background.SweepHost | ipManager/background.js:260-277 | one record's turn sets exactly the outcome `SweptHost` states |
| Background.SweptHost | ipManager/background.js:260-277 | online exactly on a successful probe, with the prober's response time; the prober's method on any probe, `error` on a throw; the response time changes only on success; the status is never left as checking; only the four health fields change |
| Background.SuggestBounded | ipManager/background.js:62-83 | the suggestions are the first five matching ones in flattened order (all of them when fewer); each is a stored host's id with the description `name - ip` containing the typed text, ignoring case; a matching host is missing only when five are shown |
| Background.Suggest | ipManager/background.js:62-83 | suggestions are offered exactly when a document is stored, and at most five of them; defined by its body and characterised by `SuggestBounded` and `SuggestEarlierEnvsFirst` |
| Background.MatchingConcat | ipManager/background.js:66-80 | matches of earlier environments come before matches of later ones |
| Background.SuggestEarlierEnvsFirst | ipManager/background.js:66-80 | once earlier environments match five times, later environments do not change the suggestions |
| Background.AllSuggestionsConcat | ipManager/background.js:66-74 | the suggestions of two runs of environments are those of the first followed by those of the second |
| Background.FirstFive | ipManager/background.js:80 | `slice(0, 5)` keeps the first five elements, or all when there are fewer |
| Background.FirstFiveConcat | ipManager/background.js:80 | once five elements are there, whatever follows them is cut away |
| Background.FindDesignated | ipManager/background.js:94 | `find` returns the first record whose id equals the text or whose lower-cased name equals the lower-cased text |
| Background.ResolveFirstInFlatOrder | ipManager/background.js:93-96 | scanning environment by environment finds the first matching record of the flattened hosts |
| Background.Resolve | ipManager/background.js:86-96 | a resolved record is a stored record that the text designates; defined by its body and characterised by `ResolveFirstInFlatOrder` and `NameMatchBeforeLaterId` |
| Background.EnteredUrl | ipManager/background.js:86-109 | a tab opens at `http://` and the address of the first designated record in flattened order; no tab opens when nothing matches or nothing is stored |
| Background.NameMatchBeforeLaterId | ipManager/background.js:92-95 | a record matched by name wins over a later record matched by id |
| Options.OptionsManager.constructor | ipManager/options.js:3-11 | the page starts from its own defaults, with health probing off |
| Options.OptionsManager.LoadSettings | ipManager/options.js:24-33 | the stored keys are merged over the current settings |
| Options.OptionsManager.CollectFormData | ipManager/options.js:122-129 | every field is overwritten from the form with its fallback, and the result has non-empty trimmed users and non-zero ports |
| Options.UserOrDefault | ipManager/options.js:125-126 | the trimmed user name, or the fallback exactly when the trim is empty |
| Options.PortOrDefault | ipManager/options.js:127-128 | the fallback exactly when `parseInt` gives NaN or 0; any other integer, negative ones included, is kept |
| Options.CollectPopulated | ipManager/options.js:113-129 | normal settings shown in the form and collected again come back unchanged |
| Options.CollectedNormal | ipManager/options.js:122-129 | whatever the form holds, the collected users are non-empty and trimmed and the ports non-zero |
| Options.Collected | ipManager/options.js:122-129 | the two switches are taken from the form, the users are non-empty and the ports non-zero; defined by its body and characterised by `CollectedNormal` and `CollectPopulated` |
| Options.OptionsManager.ResetSettings | ipManager/options.js:131-143 | the settings become exactly the constructor's defaults |
| Options.OptionsManager.SaveSettings | ipManager/options.js:35-37 | the stored object holds every key, so it loads back as the current settings over any base |
| Options.LoadDataStats | ipManager/options.js:45-68 | nothing without a stored document; otherwise the host count is the sum of the list lengths, the environment count is the number of environments, and the tag count is the number of distinct tags |
| Options.AddListTags | ipManager/options.js:54-60 | the loop over one environment adds exactly the tags of its hosts |
| Options.AddHostTags | ipManager/options.js:55-59 | the loop over one host's tags adds exactly those tags |
| Hosts.LocateHostFinds | ipManager/popup.js:609-617 | the scan finds a record exactly when some environment holds its id |
| Hosts.PushHostEffect | ipManager/popup.js:604 | `push` adds one id to the id bag and one host to the count |
| Hosts.RemoveHostAtEffect | ipManager/popup.js:572 | `splice(k, 1)` removes exactly that record's id from the bag and one host from the count |
| Hosts.ReplaceHostAtEffect | ipManager/popup.js:629 | index assignment with the same id keeps the id bag and the count |
| Js.JoinSplit | ipManager/popup.js:553 | splitting on a separator and joining with it gives the text back |
| Js.SplitJoin | ipManager/popup.js:591 | splitting undoes joining when no part holds the separator |
| Js.ParseIntToString | ipManager/options.js:127 | `parseInt` reads back the decimal text of every integer of the model (see "Left out" for JavaScript's number range) |
| Js.Includes | ipManager/popup.js:229 | `includes` holds exactly when the text occurs at some position |
| Js.TrimIdempotent | ipManager/popup.js:586 | trimming twice is trimming once |
| Hosts.FindEnv | ipManager/popup.js:601 | `find` on the environments gives the first one with the id, or none when no environment has it |
| Hosts.IndexOfHost | ipManager/popup.js:611 | `findIndex` gives the first record with the id, or none when no record has it |
| Hosts.LocateHost | ipManager/popup.js:609-617 | the first environment in which `findIndex` succeeds, with that index; none when it fails everywhere |
| Hosts.Offset | ipManager/background.js:253-258 | a list's first position among the flattened records fits inside the total count |
| Store.MoveHostEffect | ipManager/popup.js:618-626 | splicing a record out of one environment and pushing it onto another moves it: only those two lists change, the count and id bag are kept, and unique ids stay unique |
| Store.UniqueAfterAdding | ipManager/popup.js:603-604 | adding an id absent from a bag of unique ids keeps them unique |
| Forms.EditForm | ipManager/popup.js:548-555 | the edit form shows the record's name, address and pinned flag and always names an environment |
| Forms.EditFormKeepsText | ipManager/popup.js:548-555 | saving the edit form unchanged keeps the name, address, notes and RDP user |
| Forms.EditFormKeepsTags | ipManager/popup.js:553 | saving the edit form unchanged keeps the tags |
| Forms.EditFormPort | ipManager/popup.js:550 | saving the edit form unchanged keeps a truthy port and drops a falsy one |
| Popup.IPManager.SaveHostData | ipManager/popup.js:596-632 | the document's environments become `Store.SavedEnvs` for the given record; nothing else changes |
| Popup.Marked | ipManager/popup.js:502-503 | a record shown as checking differs from the original only in its status |
| HostQuery.InsertSorted | ipManager/popup.js:241-245 | inserting into an ordered list keeps it ordered |
| HostQuery.PrecedesTotal | ipManager/popup.js:241-245 | of any two items one may precede the other |
| HostQuery.PrecedesTrans | ipManager/popup.js:241-245 | the pinned-then-name order is transitive |
| Launch.AddressRoundTrip | ipManager/popup.js:385 | the address with its optional `:port` reads back as the address and the truthy port |
| Launch.SplitAtFirstOf | ipManager/popup.js:385 | cutting at the first separator recovers a part that does not hold it |
| Background.FirstReached | ipManager/background.js:169-234 | the first attempt from a given position that reached the host, with all before it failed; none when all failed |
| Background.AllSuggestions | ipManager/background.js:66-74 | one suggestion per stored record, in flattened order, with content the id and description `name - ip` |
| Background.FindDesignatedConcat | ipManager/background.js:93-96 | searching two lists one after the other is searching their concatenation |
| Options.TagsOfConcat | ipManager/options.js:55-60 | the tags of two host lists together are the tags of each in turn |
| Js.Trim | ipManager/popup.js:586 | the result has no surrounding white space, is empty exactly when the text is all white space, and is the leading white space dropped and then the trailing, each cut stated by `TrimStart` and `TrimEnd` |
| Js.TrimStart | ipManager/popup.js:586 | the result is a suffix of the text, starts with no white space, and everything dropped is white space |
| Js.TrimEnd | ipManager/popup.js:586 | the result is a prefix of the text, ends with no white space, and everything dropped is white space |
| Js.TrimFixed | ipManager/popup.js:586 | a text without surrounding white space trims to itself |
| Js.ToLower | ipManager/popup.js:228 | each character is lower-cased in place |
| Js.ToLowerIdempotent | ipManager/popup.js:228 | lower-casing twice is lower-casing once |
| Js.Split | ipManager/popup.js:591 | `split` yields at least one part and no part holds the separator |
| Js.Filter | ipManager/popup.js:229-238 | `filter` keeps each kept element as often as it occurs and drops every other; one element is kept exactly when it passes |
| Js.FilterConcat | ipManager/background.js:76-78 | filtering keeps order: a concatenation filters to the first part's kept elements, then the second's |
| Js.FindIndex | ipManager/background.js:94 | `findIndex` gives the first position whose element passes, and none when none passes |
| Js.FindIndexConcat | ipManager/background.js:93-96 | searching two lists in turn finds what searching their concatenation finds |
| Js.Map | ipManager/popup.js:591 | `map` keeps the length and applies the function at every position |
| Js.ParseInt | ipManager/options.js:127 | `parseInt` gives NaN exactly when no digit follows the sign and radix prefix; otherwise the sign times the value of the leading digits in the radix |
| Js.NatToStringValue | ipManager/popup.js:385 | the decimal text of a number reads back as the number |

## Left out

- DOM work is not modelled: rendering, modals, feedback, dark mode, `escapeHtml`, keyboard shortcuts. It has no contract beyond markup.
- The list refresh that `saveHost`, `deleteHost` and `addNewEnvironment` trigger is a separate call, `Popup.IPManager.FilterItems`, and is not part of those methods.
- `chrome.storage`, `chrome.tabs`, context menus, alarms, notifications and `runtime.sendMessage` are foreign calls. Stored values are arguments and saved values are results or fields.
- `fetch`, `AbortSignal.timeout`, `Date.now` and `Math.random` are oracles. Attempts, replies and timestamps are arguments, and a fresh id is an argument.
- The message handler's catch branch in background.js is not modelled. The prober never throws on an attempt, so this branch is unreachable in the model.
- `JSON.parse`, `FileReader`, export and `clearAllData` are library I/O and are not modelled.
- `getHealthTooltip` reads the clock and is not modelled.
- `saveSettingsForm` in the popup is not modelled. It is DOM glue around the same fallbacks as `Options.UserOrDefault`.
- The last-write-wins race between the popup and the background sweep on the stored document is about concurrency and is not modelled.
- ipManager/content.js is not part of this model. It only logs a message.
- Js.ToLower: lower-cases ASCII letters only; JavaScript's `toLowerCase` also folds non-ASCII letters.
- HostQuery.NameLe: `localeCompare` is modelled as code-point lexicographic order. Locale collation is not modelled.
- HostQuery.SortItems: stability is not stated as a property. The model's insertion sort keeps equal items in input order.
- Forms.FormHost: a port field that `parseInt` reads as NaN is stored as no port. NaN and `null` are both falsy wherever the port is read, and JSON writes NaN as `null`.
- Popup.IPManager.HandleFileImport: the conversion from the parsed JSON value to a `Document` is not modelled. The imported document is an argument beside the value the test inspects.
- Background.PerformHealthChecks: the source first collects one flat list of the stored records and then updates them through that list. The model walks environments and lists in the same order and writes each record in its place, so aliasing is not modelled.
- Popup.IPManager.PerformHealthChecks: the same applies as for Background.PerformHealthChecks. The intermediate `checking` states are returned as a ghost sequence, not rendered.
- Forms.EditFormRoundTrip: holds for records the form built. For any stored record, Forms.ResaveStored states what re-saving does: the four health fields a sweep wrote are cleared. A record whose fields do not look as the form leaves them (an imported one, say) is normalised on re-save rather than kept.
- Js.ParseIntToString: numbers are unbounded integers. JavaScript numbers are doubles, so integers above 2^53 lose precision and from 10^21 on `${n}` writes exponent notation; the round trip, and Options.CollectPopulated and Forms.EditFormPort built on it, hold in the source only below those bounds.
- Options.CollectPopulated: holds in the source only for ports below 2^53, for the reason given for Js.ParseIntToString.
- Forms.EditFormPort: holds in the source only for ports below 2^53, for the reason given for Js.ParseIntToString.
- Store.SavedEnvs: with no environments at all, adding throws a TypeError at popup.js:605 before anything is saved. The model returns the environments unchanged, which is the state the throw leaves; the exception and the modal staying open are not modelled.
- Background.NameMatchBeforeLaterId: the comment at background.js:92 says "by ID first, then by name". The code tests both conditions in one pass per list, and the model follows the code.
- Stored documents are taken to be well-formed: every environment carries an `items` list and every record a `tags` list, so the guards `if (env.items)` (ipManager/popup.js:492, ipManager/background.js:251), `item.tags &&` (ipManager/popup.js:232, 235) and `if (item.tags)` (ipManager/options.js:55) always pass and are not modelled. Only the shape test on import, `Popup.IPManager.HandleFileImport`, is modelled.
