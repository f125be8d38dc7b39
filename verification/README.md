# Device dashboard record rules, in Dafny

This project models the device-record logic of a network device dashboard.
The dashboard has two parts:

- a TypeScript web client that draws devices as a force-directed graph, with a search box, a group filter and a details panel;
- a small FastAPI server that keeps the device list in memory.

The model covers the pure rules both parts apply to one fixed record shape.
A `Device` carries a group (numeric id plus name), an `is_active` flag, a classification (category and confidence) and a content blocklist of 13 boolean flags. The model covers:

- **Device actions.** `isolate`, `release` and `toggle_block` change a device's blocklist and its `has_custom_blocklist` marker. The client applies them locally to every device with the id. The server applies them to the first device with the id, and answers 404 for an unknown id and 400 for a bad request. The server also has a partial update that renames a device and moves it between the four known groups.
- **Summary.** This is the total and active counts, plus per-group-name and per-category tallies. The client computes it with `filter`/`reduce`. The server computes it with loops. Both give the same result.
- **Graph input.** This is the search/group filter, the device-to-simulation-node mapping, the x coordinate each group is pulled towards, and the group background circles.
- **Presentation.** This covers node colour, radius, the restriction marker and the label. It also covers the details panel's status class, icon, quick-action requests and its table of blocklist toggles.

Modules follow the source files:

- `DeviceTypes` for `src/lib/deviceTypes.ts` and the pydantic models in `api/main.py`;
- `BlocklistRules` for the action rules shared by both sides;
- `DeviceDashboard`, `ServerApi`, `NetworkVisualization`, `DeviceNode` and `DeviceDetailsPanel` for the components;
- `Tally`, `Seqs` and `Text` for counting, order-preserving filtering and ASCII case folding;
- `Consistency` for the lemmas that relate the client, the server and the panel.

HTTP errors are a `Result` whose failure carries the status code and the detail text. The server handlers take the device list as a parameter. They return the list they leave behind together with the reply. Confidence, node size and canvas coordinates are `real`.

Behaviour as written that a reader might not expect:

- **The restriction marker.** It is shown when some flag value is set and differs from `safesearch` (`DeviceNode.tsx:40`). While `safesearch` is on the marker never shows, even on an isolated device.
- **Duplicate ids.** The client updates every device whose id matches. The server updates only the first one. The two agree when ids are unique (`Consistency.ServerListMatchesClientList`). `Consistency.DuplicateIdsDiverge` shows where they part ways.
- **Empty strings count as absent.** An empty group filter means no filter (`NetworkVisualization.tsx:38`). An empty `toggle_block` category counts as a missing one on both sides (`DeviceDashboard.tsx:106`, `api/main.py:195`).
- **The partial-update payload.** `DeviceUpdate` follows the server's `group_id` field. The client type spells it `'group.id'` (`deviceTypes.ts:83`). That client type is not used by any modelled code.

## Model

| member | source | states |
|---|---|---|
| DeviceTypes.BlockListShape | src/lib/deviceTypes.ts:9-23 | The blocklist has exactly 13 pairwise-distinct field names, every flag is listed once, `safesearch` is one of them, and each field name parses back to its flag |
| DeviceTypes.FieldTablesAgree | api/main.py:30-43 | The server's blocklist fields, transcribed from its model, are the same 13 names as the client's interface fields (`src/lib/deviceTypes.ts:9-23`), in the same order, each the field name of the flag at that position |
| DeviceTypes.ParseField | api/main.py:198 | A category string names a flag exactly when it equals one of the 13 field names, and then it names that flag |
| DeviceTypes.ParseAction | src/lib/deviceTypes.ts:76-79 | An action string names an action exactly when it is `isolate`, `release` or `toggle_block` |
| DeviceTypes.ActionNamesRoundTrip | src/lib/deviceTypes.ts:77 | The three action kinds have distinct wire names that parse back to the same kind |
| DeviceTypes.SetFrame | src/components/DeviceDashboard.tsx:107 | Writing one flag changes that flag and no other |
| BlocklistRules.Isolated | src/components/DeviceDashboard.tsx:86-91 | Isolating sets every flag except `safesearch` and keeps `safesearch` as it was |
| BlocklistRules.Released | src/components/DeviceDashboard.tsx:96-101 | Releasing clears every flag except `safesearch` and sets `safesearch` |
| BlocklistRules.Toggled | src/components/DeviceDashboard.tsx:107 | Toggling flips the named flag and leaves the other twelve unchanged |
| BlocklistRules.IsolateIdempotent | src/components/DeviceDashboard.tsx:86-91 | Isolating twice gives the same blocklist as isolating once |
| BlocklistRules.ReleaseIdempotent | src/components/DeviceDashboard.tsx:96-101 | Releasing twice gives the same blocklist as releasing once |
| BlocklistRules.ToggleInvolution | src/components/DeviceDashboard.tsx:107 | Toggling the same flag twice restores the blocklist |
| Tally.Tally | api/main.py:122-129 | The left-to-right counting pass that both the client's reduce and the server's loop perform; its properties are stated by `Tally.TallyCounts`, `Tally.TallySnoc` and `Tally.TallySum` |
| Tally.TallySnoc | api/main.py:125-129 | One more key adds one to that key's count, starting from zero, and leaves every other count alone |
| Tally.TallyCounts | src/components/DeviceDashboard.tsx:36-43 | The reduce's table has one key per distinct key of the input, each mapped to its number of occurrences |
| Tally.TallySum | src/components/DeviceDashboard.tsx:36-43 | The counts of a table built by the reduce add up to the number of devices |
| DeviceDashboard.LoadSummary | src/components/DeviceDashboard.tsx:33-44 | `total` is the device count. `active` is the number of active devices, counted one by one; it is at most `total`, equals it iff every device is active, and is 0 iff none is. Each table has exactly the distinct group names or categories as keys, with their occurrence counts |
| DeviceDashboard.FilterCountsActive | src/components/DeviceDashboard.tsx:35 | The length of the list of active devices equals the number of active devices counted one by one |
| DeviceDashboard.SummaryCountsAddUp | src/components/DeviceDashboard.tsx:36-43 | The values of `by_group` sum to `total`, and so do the values of `by_category` |
| DeviceDashboard.ToggleTarget | src/components/DeviceDashboard.tsx:106 | A toggle names a flag exactly when its category is present and is a blocklist field name |
| DeviceDashboard.ApplyAction | src/components/DeviceDashboard.tsx:83-113 | Only the blocklist and the custom marker change. Isolate and release apply their rule and set the marker. A toggle with a known category flips only that flag and sets the marker. A toggle with a missing or unknown category leaves the device unchanged |
| DeviceDashboard.HandleDeviceAction | src/components/DeviceDashboard.tsx:79-115 | The list keeps its length and order. Every device with the id gets the action and every other device is untouched |
| DeviceDashboard.IsolateActionIdempotent | src/components/DeviceDashboard.tsx:86-93 | Isolating a device twice gives the same device as isolating it once |
| DeviceDashboard.ToggleActionTwiceRestoresBlocklist | src/components/DeviceDashboard.tsx:105-110 | Sending the same toggle twice restores the device's blocklist |
| ServerApi.FindDevice | api/main.py:141-145 | The lookup returns the first position holding the id, or nothing exactly when no device has the id |
| ServerApi.GroupNameTable | api/main.py:157-158 | Exactly the group ids 1 to 4 have a name |
| ServerApi.ApplyUpdate | api/main.py:150-161 | Only the given name and the group change. A provided name replaces the old one. A known group id sets the id and the table name, with `is_default` true iff the id is 1. An unknown or absent group id leaves the group as it was |
| ServerApi.UpdateDevice | api/main.py:138-163 | An unknown id gives 404 and leaves the list unchanged. Otherwise the device at the first position holding the id (no earlier device has it) is updated and returned, and every other entry is unchanged |
| ServerApi.UpdateKeepsGroupsConsistent | api/main.py:155-161 | If every device with a known group id carries that group's name and default marker, this still holds after an update |
| ServerApi.ApplyServerAction | api/main.py:177-208 | The handler fails, always with 400, exactly on an unknown action string or on a toggle whose category is absent or not a field name. On success only the blocklist and the marker change and the marker is set. Isolate and release apply their rules. A toggle flips only the named flag |
| ServerApi.ExecuteDeviceAction | api/main.py:165-208 | An unknown id gives 404. On any error the list is unchanged. For a known id the reply is the handler's own result for the first device with the id, and on success exactly that position is replaced by the updated device |
| ServerApi.GetSummary | api/main.py:113-136 | The server's summary has the device count, the active count and the two tallies, and equals the client's summary |
| ServerApi.CountActive | api/main.py:117 | The loop counts exactly the active devices |
| ServerApi.TallyGroupsAndCategories | api/main.py:119-129 | The loop builds the same group-name and category tables as the client's reduce |
| Text.Lower | src/components/NetworkVisualization.tsx:33 | Lower-casing keeps the length and maps each ASCII capital to its small letter (code point plus 32), leaving other characters alone |
| Text.LowerIdempotent | src/components/NetworkVisualization.tsx:33 | Lower-casing twice is lower-casing once |
| Text.Contains | src/components/NetworkVisualization.tsx:33-36 | `includes` holds exactly when the needle occurs at some position of the string. The empty needle occurs everywhere |
| Seqs.Filter | src/components/NetworkVisualization.tsx:31 | The result is an order-preserving subsequence of the input, no longer than it, that keeps an element exactly when it satisfies the predicate |
| NetworkVisualization.MatchesSearch | src/components/NetworkVisualization.tsx:32-36 | The search predicate: an empty term, a case-folded match in a name field, or a verbatim match in the IP; its behaviour is stated by `NameSearchIgnoresCase`, `SearchFoldsCaseExceptIp` and `IpSearchIsCaseSensitive` |
| NetworkVisualization.MatchesGroup | src/components/NetworkVisualization.tsx:38 | The group predicate: no filter or an empty one matches everything, otherwise the group name must equal the filter; its use is stated by `FilteredDevices` |
| NetworkVisualization.FilteredDevices | src/components/NetworkVisualization.tsx:31-41 | The visible devices are an order-preserving subsequence of the input. A device is kept iff the search and the group predicate both hold, and a kept device appears exactly as often as in the input. With a group filter set, every kept device has exactly that group name |
| NetworkVisualization.UnfilteredShowsAll | src/components/NetworkVisualization.tsx:32-38 | An empty search term and no group filter show every device, in order |
| NetworkVisualization.FilterTwiceIsFilterOnce | src/components/NetworkVisualization.tsx:31-41 | Filtering the visible devices again with the same inputs changes nothing |
| NetworkVisualization.EmptyIffConflicting | src/components/NetworkVisualization.tsx:40 | The filtered list is empty exactly when no device satisfies both predicates |
| NetworkVisualization.NameSearchIgnoresCase | src/components/NetworkVisualization.tsx:33-34 | Two terms with the same lower-cased form find the same devices through the name, host name and vendor |
| NetworkVisualization.SearchFoldsCaseExceptIp | src/components/NetworkVisualization.tsx:32-36 | A device found by a term is also found by the lower-cased term, unless the term matched only its IP and none of its name fields |
| NetworkVisualization.IpSearchIsCaseSensitive | src/components/NetworkVisualization.tsx:35 | The IP comparison is case-sensitive: a device whose IP is `FE80::1` and whose name fields are empty is found by `FE80` but not by `fe80` |
| NetworkVisualization.SimulationNodes | src/components/NetworkVisualization.tsx:67-69 | There is one node per visible device, in order. Each node carries the device unchanged and the device's group id |
| NetworkVisualization.GroupTargetX | src/components/NetworkVisualization.tsx:79-83 | The grouping target `(id - 1)·w/4 + w/4` simplifies to `id·w/4` |
| NetworkVisualization.GroupPositions | src/components/NetworkVisualization.tsx:98-103 | The four background circles carry the ids 1 to 4 in order, each at its group's grouping target |
| NetworkVisualization.BackgroundsMatchTargets | src/components/NetworkVisualization.tsx:98-103 | Each of the four background circles sits exactly at its group's target, and its name is the name the server's table gives that id |
| NetworkVisualization.GroupTargetsOrdered | src/components/NetworkVisualization.tsx:82 | On a canvas of positive width, a larger group id gets a target further right |
| DeviceNode.DeviceColor | src/components/DeviceNode.tsx:15-31 | The colour is the inactive colour iff the device is inactive. For active devices, `entertainment` and `iot` share the IoT colour, and the primary colour is used iff the category is not one of the five listed |
| DeviceNode.DeviceSize | src/components/DeviceNode.tsx:33-37 | The radius is `6·scale·(1 + confidence)` |
| DeviceNode.SizeRange | src/components/DeviceNode.tsx:33-37 | The radius is `6·scale` at confidence 0 and `12·scale` at confidence 1, and it is nondecreasing in confidence for a nonnegative scale |
| DeviceNode.ValuesFollowFlags | src/components/DeviceNode.tsx:40 | The model lists the 13 flag values in declaration order: the `i`-th value is the value of the `i`-th flag. The `some` over them does not depend on the order |
| DeviceNode.SomeDiffers | src/components/DeviceNode.tsx:40 | The left-to-right `some` holds iff some value is set and differs from `safesearch` |
| DeviceNode.HasRestrictions | src/components/DeviceNode.tsx:39-41 | The marker is never shown while `safesearch` is on. With `safesearch` off it is shown iff some other flag is set |
| DeviceNode.NoRestrictionsAfterRelease | src/components/DeviceNode.tsx:39-41 | After `release` the marker is never shown |
| DeviceNode.RestrictionsAfterIsolate | src/components/DeviceNode.tsx:39-41 | After `isolate` the marker is shown iff `safesearch` was off beforehand |
| DeviceNode.Label | src/components/DeviceNode.tsx:105 | The label is the given name, or the host name when the given name is empty. It is empty only when both are |
| DeviceDetailsPanel.CategoryTableCoversBlocklist | src/components/DeviceDetailsPanel.tsx:39-52 | The table has 12 pairwise-distinct keys. Each key parses to a blocklist flag, and exactly the flags other than `safesearch` have a row |
| DeviceDetailsPanel.IsolateRequest | src/components/DeviceDetailsPanel.tsx:117 | The isolate button sends `isolate` with no category |
| DeviceDetailsPanel.ReleaseRequest | src/components/DeviceDetailsPanel.tsx:125 | The release button sends `release` with no category |
| DeviceDetailsPanel.ToggleRequest | src/components/DeviceDetailsPanel.tsx:147-150 | A toggle row sends `toggle_block` with its own key as the category |
| DeviceDetailsPanel.StatusColor | src/components/DeviceDetailsPanel.tsx:34-37 | The status class is the inactive class iff the device is inactive |
| DeviceDetailsPanel.DeviceIcon | src/components/DeviceDetailsPanel.tsx:19-31 | Every category gets an icon. It is the wifi icon exactly for categories outside the four listed |
| DeviceDetailsPanel.ToggleRows | src/components/DeviceDetailsPanel.tsx:139-160 | There is one row per table entry, in order. Each row shows its caption and its flag's current value, and sends its toggle request |
| DeviceDetailsPanel.RenderPanel | src/components/DeviceDetailsPanel.tsx:16-199 | No device renders nothing. A device renders its names, status class, icon, the two quick-action requests and its toggle rows |
| Consistency.ServerMatchesClientAction | api/main.py:179-206 | On one device, the server returns the client's result for every request the client acts on. It answers 400 exactly on a toggle whose category is missing, empty or not a field name; the client ignores those requests and leaves the device unchanged |
| Consistency.ServerListMatchesClientList | src/components/DeviceDashboard.tsx:79-115 | With unique ids, the server's list after any action request equals the client's locally updated list |
| Consistency.UnknownIdChangesNothing | api/main.py:174-175 | For an id no device has, the client list is unchanged and the server answers 404 with its list unchanged |
| Consistency.PanelRequestsAccepted | src/components/DeviceDetailsPanel.tsx:114-150 | The server accepts every request the panel can send, so the 400 paths are never taken from the panel |
| Consistency.PanelToggleFlipsItsRow | src/components/DeviceDetailsPanel.tsx:139-160 | Pressing a toggle row flips that row's state in the rows rendered for the updated device and leaves every other row unchanged |
| Consistency.DuplicateIdsDiverge | api/main.py:168-172 | When two devices share an id, the server applies the action only to the first, while the client applies it to the second too; isolating an unmarked device listed twice shows the lists differ |

## Left out

- The force-directed layout itself (charge, centering, collision, alpha decay, ticks). It is a call into the d3 library with floating-point dynamics, random initial jitter and timer callbacks.
- Window-resize measurement, React effect lifecycles, loading state and toast notifications. These are UI and event plumbing.
- `src/lib/deviceApi.ts`, the fetch-based HTTP client. It is I/O.
- FastAPI wiring: CORS, routing, loading the sample JSON file, the health-check timestamp and `uvicorn`. Only the handler bodies are modelled, as pure functions over the device list.
- `DashboardHeader.tsx`. Its only logic is display arithmetic and the `"all"`/null select mapping.
- The client's refresh of the selected device, which reads the list from before the update. This is a JavaScript closure effect with no counterpart in a pure model.
- The shallow device copy that shares its blocklist object with the previous state. This is aliasing, which immutable values cannot express.
- The graph's early return when the filtered list is empty (`NetworkVisualization.tsx:64`). The previous nodes then stay drawn. This is a React effect that leaves state untouched, and the model only states that the filtered list is empty.
- DeviceNode.ValuesFollowFlags: the run-time order of `Object.values` follows the key order of the device data, not the interface declaration. The model fixes declaration order, which does not affect the result, because `some` is order-independent.
- Rounding of the confidence percentage for display.
- NetworkVisualization.SimulationNodes: does not model the initial `x`/`y` positions, because they come from `Math.random`.
- DeviceDashboard.ToggleTarget: treats a category as valid only when it is one of the 13 field names, because JavaScript's `in` also sees prototype keys.
- ServerApi.ApplyServerAction: treats a category as valid only when it is one of the 13 field names, because Python's `hasattr` also sees model methods.
- DeviceDashboard.LoadSummary: the reduce is modelled as counting, because JavaScript's `acc[k] || 0` misbehaves on prototype keys such as `toString`.
- Text.Lower: folds only ASCII letters, because JavaScript's `toLowerCase` uses full Unicode case mapping.
- DeviceNode.DeviceSize: uses exact real arithmetic, because the source uses IEEE doubles.
- NetworkVisualization.GroupTargetX: uses exact real arithmetic, because the source uses IEEE doubles.
