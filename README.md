# VM visualizer — a verified model

The VM visualizer is a Next.js dashboard for a fleet of virtual machines. It has:

- A client-side store (the `useVMs` hook). It caches VM records, a loading flag, an error and a fallback flag. It fetches the list from the service. If that fails, it falls back to five demo records. It changes a VM's status optimistically, creates records and deletes them.
- A collection endpoint `/api/vms`. GET lists the records newest first. POST checks the required fields, defaults the usage figures to 0 and inserts one record.
- A dashboard page. It shows summary counts, colour rules, a "Change Status" menu, the set of VMs whose update is in flight, and follow-ups after a delete or a clone.
- A stand-alone visualizer page over a fixed list.
- A world map that groups the VMs into five fixed regions and colours regions, markers and continents.
- Three drawers:
  - logs: filtering, export and the loading spinner;
  - SSH: the command strings and which actions are available;
  - clone: the guarded payload builder with random usage figures and a random address.

## How each part is modelled

- **Network and database calls.** The outcome of every call is a parameter:
  - `Outcomes.Outcome`: the response was ok, an HTTP error with its `details`, or the call threw.
  - `VmsRoute.ParsedBody` and `VmsRoute.InsertOutcome`: the endpoint's body parse and INSERT.

  So every path is deterministic.
- **The store.** The `VmStore.Store` class holds the four state fields. Each of its methods ends in the state that a pure function gives for the old state and the outcome (`Fetched`, `UpdatedStatus`, `Created`, `Deleted`). The properties of the operations are proved about those functions. The status update follows the corrected rule of "## Findings", row 1, and so does the dashboard that calls it; the code as written is `VmStore.UpdatedStatusAsWritten`.
- **The endpoint.** `VmsRoute.VmsHandler` updates its table field the way `PostStep` and `GetResponse` state.
- **Stateful components.**
  - The dashboard's in-flight set and drawer flags are `Dashboard.Page`.
  - The clone form is `CloneDrawer.CloneForm`.
  - The logs drawer is `LogsDrawer.LogsPanel`. Its timer is an event, and its methods follow the transition function `LogsDrawer.Step`.
- **Pure parts.** The map, the SSH drawer and the visualizer's list are functions and lemmas.
- **Random draws.** A `Math.random()` draw is a real number in [0, 1) (`CloneDrawer.Draw`), so the payload's ranges are proved for every possible draw.

Shared list rules are in `VmModel`:

- find, status change, replace, remove, running count;
- the status menu;
- the usage bands.

Generic sequence and string lemmas are in `Seqs` (filter) and `Text` (decimal digits, join and split).

## Model

| member | source | states |
|---|---|---|
| Outcomes.DetailsOr | hooks/use-vms.ts:96-97 | `details \|\| fallback` is never empty when the fallback message is not |
| VmModel.FindById | hooks/use-vms.ts:116-117 | no record exactly when no record has the id; otherwise the first record with that id, which is in the list |
| VmModel.SetStatusOnlyStatus | hooks/use-vms.ts:120 | the optimistic map keeps length and order, gives the new status exactly to the records of that id and changes no other field |
| VmModel.SetStatusUnknownId | vm-visualizer.tsx:116 | a status change for an id no record has leaves the list unchanged |
| VmModel.SetStatusIdempotent | vm-visualizer.tsx:116 | applying the same status change twice equals applying it once |
| VmModel.ReplaceAfterSetStatus | hooks/use-vms.ts:141-149 | writing back a record after the optimistic write erases that write: the result is as if it had never happened |
| VmModel.ReplaceWithFoundRestores | hooks/use-vms.ts:141-146 | with unique ids, writing back the record found before the call restores the list exactly |
| VmModel.RemoveByIdSpec | hooks/use-vms.ts:218 | removal keeps every record of another id with its multiplicity and no record of that id; it distributes over concatenation (order kept), is idempotent and is the identity for an unknown id |
| VmModel.RunningCountSpec | vm-dashboard.tsx:117-118 | the running count is at most the total, equals it exactly when every record runs and is 0 exactly when none does |
| VmModel.MenuItemDisabled | vm-dashboard.tsx:298-326 | an entry is always disabled when it asks for the current status |
| VmModel.ChosenTargetDiffers | vm-dashboard.tsx:298-326 | an enabled entry never asks for the current status; an entry is disabled exactly when it does, or when it is Stop on a Terminated VM |
| VmModel.UsageBand | vm-dashboard.tsx:93-97 | the band is High exactly from 80, Medium exactly from 60 to 79 and Low exactly below 60 |
| VmModel.BandMonotone | vm-dashboard.tsx:93-97 | a higher usage never falls in a lower band |
| VmStore.FetchFailureMessage | hooks/use-vms.ts:94-98 | the error message of a failed response is never empty |
| VmStore.Fetched | hooks/use-vms.ts:80-111 | after a fetch, loading is off; on success the cache is the server's list, with no error and fallback off; on failure the cache is the demo list, with the error message set and fallback on |
| VmStore.UpdatedStatusAsWritten | hooks/use-vms.ts:113-156 | as written: an unknown id changes nothing; a rejected live request keeps the optimistic status and records the error |
| VmStore.AsWrittenAgrees | hooks/use-vms.ts:113-149 | on every path but a rejected live request for a known id (unknown id, fallback mode, success, HTTP error) the update as written gives the same state and request as the corrected rule |
| VmStore.UpdatedStatus | hooks/use-vms.ts:113-156 | corrected rule (## Findings, row 1): an unknown id changes nothing and sends nothing; fallback mode keeps the optimistic write and sends nothing; live mode sends the old cpu, memory and storage, adopts the server's copy on success, and on failure restores the records of that id and sets the error; the loading and fallback flags never change |
| VmStore.Created | hooks/use-vms.ts:158-195 | success in either mode puts the new record in front, so the cache grows by one; the fallback record is the data with the local id and timestamps, and nothing is sent; a live failure leaves the cache alone, sets the error and returns the failure; the flags never change |
| VmStore.Deleted | hooks/use-vms.ts:197-222 | success removes every record of that id; fallback mode always succeeds and sends nothing; a live failure leaves the cache alone, sets the error and returns the failure; the flags never change |
| VmStore.MutationsKeepMode | hooks/use-vms.ts:113-222 | no mutation changes the mode (loading, live, fallback), whatever its outcome; this holds for the update as written too |
| VmStore.FallbackEditsLostOnRefetch | hooks/use-vms.ts:102-106 | in fallback mode a delete of a demo record and a clone change the cache, but a follow-up fetch that fails again resets it to the demo list, so the deleted record returns and the clone is gone |
| VmStore.RetryLeavesFallback | hooks/use-vms.ts:82-84 | a failed fetch enters fallback mode on the demo list; the next successful fetch leaves it, with exactly the server's list |
| VmStore.FallbackSendsNothing | hooks/use-vms.ts:122-126 | after a failed fetch, none of the three mutations sends a request |
| VmStore.FallbackIdsUnique | hooks/use-vms.ts:21-72 | the demo list has five records with distinct ids |
| VmStore.FallbackRunning | hooks/use-vms.ts:21-72 | exactly two of the demo records are Running |
| VmStore.FallbackRegions | hooks/use-vms.ts:21-72 | every demo record sits in one of the five map regions |
| VmStore.RejectedUpdateKeepsOptimisticStatus | hooks/use-vms.ts:140-153 | for a concrete rejected request, the code as written keeps the optimistic status, while the corrected rule restores the list |
| VmStore.Store.constructor | hooks/use-vms.ts:75-78 | the store starts empty and loading, with no error and fallback off |
| VmStore.Store.FetchVMs | hooks/use-vms.ts:80-111 | the store ends in `Fetched` of the outcome, after sending the list request |
| VmStore.Store.UpdateVMStatus | hooks/use-vms.ts:113-156 | corrected rule (## Findings, row 1): the store ends in the `UpdatedStatus` state and sends the `UpdatedStatus` request |
| VmStore.Store.CreateVM | hooks/use-vms.ts:158-195 | the store ends in the `Created` state; its result and request are the `Created` ones |
| VmStore.Store.DeleteVM | hooks/use-vms.ts:197-222 | the store ends in the `Deleted` state; its result and request are the `Deleted` ones |
| VmsRoute.OrZero | app/api/vms/route.ts:64 | `x \|\| 0` is truthy exactly when x is, differs from x only when x is falsy, and is never a falsy value other than 0 |
| VmsRoute.NewRow | app/api/vms/route.ts:62-76 | a body that passed the check gives a row with all four required fields truthy; no usage figure is stored falsy except as 0, and a truthy one is stored as sent; id and timestamps are the datastore's |
| VmsRoute.PostStep | app/api/vms/route.ts:52-89 | 400 exactly when the body parsed but a required field is falsy; 201 exactly when it passed and the insert succeeded, and then the table gains exactly the new row; otherwise the table is unchanged; 500 carries "Failed to create VM", no timestamp and the thrown message or "Unknown error" |
| VmsRoute.RequiredFieldRefused | app/api/vms/route.ts:58-60 | a body missing any one required field, or holding "" / 0 / null there, gets 400 and inserts nothing |
| VmsRoute.UsageDefaulting | app/api/vms/route.ts:64 | absent, null or 0 usage becomes 0; any non-zero number is kept, however large or negative |
| VmsRoute.CreatedEchoesRequest | app/api/vms/route.ts:62-78 | a created record answers 201 and echoes the request's name, region, status and ipAddress; it is the table's new last row |
| VmsRoute.OrderByCreatedDesc | app/api/vms/route.ts:19-33 | the listing is sorted newest first and is a permutation of the table |
| VmsRoute.GetResponse | app/api/vms/route.ts:11-50 | a listing exactly when nothing threw, sorted newest first and a permutation of the table; otherwise 500 with "Failed to fetch VMs", the thrown message or "Unknown error", and the timestamp |
| VmsRoute.ListingIsComplete | app/api/vms/route.ts:19-36 | a successful listing has as many rows as the table, holds every stored row and nothing else |
| VmsRoute.CreatedRowListed | app/api/vms/route.ts:62-78 | a row created by POST appears in the next successful listing |
| VmsRoute.VmsHandler.constructor | app/api/vms/route.ts:9 | the handler starts over the given table |
| VmsRoute.VmsHandler.Get | app/api/vms/route.ts:11-50 | GET answers `GetResponse` of the current table |
| VmsRoute.VmsHandler.Post | app/api/vms/route.ts:52-89 | the response and the new table are those of `PostStep` on the old table |
| WorldMap.Group | components/world-map.tsx:78-86 | a region keeps its name, country and coordinates; a VM is in its list exactly when it is in the input with that region name; each VM of that name occurs in it as often as in the input and no other VM occurs; vmCount is its length, at most the input's, and the status list is theirs |
| WorldMap.GroupKeepsInputOrder | components/world-map.tsx:79 | a region's list keeps the input's order: grouping a concatenation joins the groups of the parts, one VM gives itself exactly when it has the region's name, no VMs give none |
| WorldMap.GroupAll | components/world-map.tsx:78-86 | one grouped region per fixed region, in the fixed order |
| WorldMap.HexInjective | components/world-map.tsx:89-104 | distinct colours are drawn with distinct hex codes |
| WorldMap.GetStatusColor | components/world-map.tsx:89-104 | each status has its own colour, and none is the gray of an empty region |
| WorldMap.StatusInRegion | components/world-map.tsx:78-86 | a status is in a region's status list exactly when a VM of that region has it |
| WorldMap.RegionEmpty | components/world-map.tsx:82 | a region's vmCount is 0 exactly when no VM carries its name |
| WorldMap.RegionColorMeaning | components/world-map.tsx:106-113 | a region is gray exactly when empty, green exactly when a VM of it runs and none is terminated, red exactly when one is terminated and none runs, and yellow otherwise |
| WorldMap.MarkerColorMeaning | components/world-map.tsx:115-122 | a marker is gray exactly when its region is empty, green exactly when all its VMs run, red exactly when none does, and yellow exactly when some do and some do not |
| WorldMap.MarkerAgreesWithRegion | components/world-map.tsx:106-122 | the marker is gray exactly when the region is; a green marker sits on a green region; a red marker never sits on a green one |
| WorldMap.RegionNamesOfMap | components/world-map.tsx:37-77 | the five regions carry the five distinct region names, in order |
| WorldMap.GroupingCounts | components/world-map.tsx:37-86 | the five vmCounts add up to the number of VMs whose region is one of the five names, which is at most the total |
| WorldMap.UnlistedInNoRegion | components/world-map.tsx:78-86 | a VM whose region is not one of the five names is in no region's list |
| WorldMap.VisibleRegions | components/world-map.tsx:225-227 | markers and cards are shown exactly for the regions that hold VMs, and none when there are no VMs |
| WorldMap.VisibleKeepsOrder | components/world-map.tsx:293-295 | two shown regions appear in the fixed order of the five regions |
| WorldMap.CountLabelSpec | components/world-map.tsx:301 | the label reads back as its count, then "VM", plural exactly when the count is not 1 |
| WorldMap.RunningAtMostCount | components/world-map.tsx:279-280 | the running figure shown for a region never exceeds its vmCount |
| WorldMap.FirstOf | components/world-map.tsx:159 | `find` gives the first region of the country, if any |
| WorldMap.ContinentFills | components/world-map.tsx:155-221 | six continent shapes; the three without regions are always gray and dim |
| WorldMap.RegionsDataShape | components/world-map.tsx:78-86 | the grouped data has the five regions' countries in order |
| WorldMap.ContinentFillsAsWritten | components/world-map.tsx:157-197 | North America takes the colour of N. Virginia alone, so with VMs only in Oregon it is highlighted but gray; Europe is plain green whenever it holds VMs; Asia takes Tokyo's colour |
| Dashboard.ResourceColorByBand | vm-dashboard.tsx:93-97 | the bar colour depends on the usage band alone: destructive exactly from 80, chart-1 exactly below 60, chart-3 in between |
| Dashboard.BadgeClassFamily | vm-dashboard.tsx:63-78 | a badge class starts with "bg-", then its colour family, then "-" |
| Dashboard.BadgeClassInjective | vm-dashboard.tsx:63-78 | badges of different families have different class lists |
| Dashboard.StatusColorMatchesMap | vm-dashboard.tsx:63-78 | each status's badge uses the family of its map colour; distinct statuses get distinct badges; none gets the gray of the default branch |
| Dashboard.RegionSet | vm-dashboard.tsx:189 | every VM's region is in the set, which has at most as many entries as VMs and at least one when there are VMs |
| Dashboard.RegionSetWitness | vm-dashboard.tsx:189 | every region in the set is some VM's region |
| Dashboard.NotInRegionSet | vm-dashboard.tsx:189 | a region no VM has is not in the set |
| Dashboard.SummaryBounds | vm-dashboard.tsx:117-118 | neither the running nor the region count exceeds the total; a non-empty list has at least one region; running equals the total exactly when all run |
| Dashboard.Page.constructor | vm-dashboard.tsx:54-61 | no update in flight and both drawers closed |
| Dashboard.Page.HandleUpdateVMStatus | vm-dashboard.tsx:80-91 | the id is in the set during the store call and leaves it afterwards; no other id changes membership; the store ends in the corrected `UpdatedStatus` (## Findings, row 1); afterwards the id's "Change Status" button is enabled and no other button's state changes; the drawer flags are untouched |
| Dashboard.Page.OnDelete | vm-dashboard.tsx:388-397 | after a successful delete, the details drawer closes and the list is refetched; after a failed one, the drawer stays as it was and nothing more is sent |
| Dashboard.Page.OnClone | vm-dashboard.tsx:405-414 | after a successful create, the clone drawer closes and the list is refetched; after a failed one, it stays as it was and nothing more is sent |
| Dashboard.Page.CloneFromDrawer | components/vm-clone-drawer.tsx:49-76 | a clone from the dashboard passes the form's payload to `onClone`, which creates it and, on success, closes the drawer and refetches, or on failure keeps the drawer and leaves the create's state; as `onClone` never throws, the form always resets and no alert is shown; an incomplete form sends nothing and keeps its values; the in-flight set and the details drawer are untouched |
| Visualizer.InitialVMsShape | vm-visualizer.tsx:30-81 | the page's initial list equals the store's demo list: five distinct ids, two Running |
| Visualizer.UpdateVMStatusSpec | vm-visualizer.tsx:115-117 | length and order are kept; only records of that id change, and only in status; an unknown id changes nothing; a repeated update changes nothing more |
| Visualizer.MenuChoiceChangesStatus | vm-visualizer.tsx:258-286 | choosing an enabled entry of a VM's menu always changes that VM's status to the entry's target |
| Visualizer.ResourceColorByBand | vm-visualizer.tsx:119-123 | red exactly from 80, green exactly below 60, yellow in between; red and green exactly where the dashboard is destructive and chart-1 |
| Visualizer.Apply | vm-visualizer.tsx:115-117 | any sequence of status updates keeps the records' number, ids and regions |
| Visualizer.HardCodedRegionsHold | vm-visualizer.tsx:167 | the constant 5 on the region card is right for every list the page can reach |
| Visualizer.SameIds | vm-visualizer.tsx:115-117 | lists with the same ids position by position are both unique or both not |
| Visualizer.SameRegions | vm-visualizer.tsx:115-117 | lists with the same regions position by position span the same region set |
| Visualizer.DistinctRegions | vm-visualizer.tsx:167 | records of pairwise distinct regions span as many regions as there are records |
| Visualizer.InitialRegions | vm-visualizer.tsx:30-81 | the initial list spans five regions |
| CloneDrawer.Scaled | components/vm-clone-drawer.tsx:58-60 | `Math.floor(r * k) + c` lies in [c, c + k) for every draw |
| CloneDrawer.ScaledReaches | components/vm-clone-drawer.tsx:58-60 | every integer of [c, c + k) is reached by some draw, so the bounds are tight |
| CloneDrawer.Octet | components/vm-clone-drawer.tsx:61 | an octet is at most 254 |
| CloneDrawer.Octets | components/vm-clone-drawer.tsx:61 | four octets, each at most 254 |
| CloneDrawer.IpAddressReadsBack | components/vm-clone-drawer.tsx:61 | the address splits at "." into four decimal numbers, which are the octets drawn |
| CloneDrawer.Payload | components/vm-clone-drawer.tsx:54-62 | name and region as entered; Starting with auto start, Terminated without; cpu in [10, 39], memory in [20, 59], storage in [30, 79] |
| CloneDrawer.PayloadAddress | components/vm-clone-drawer.tsx:61 | the payload's address is four "."-joined numbers, each in [0, 254] |
| CloneDrawer.CloneRegionsAreRegionNames | components/vm-clone-drawer.tsx:41-47 | the form offers exactly the five region names of the map, in the same order |
| CloneDrawer.CloneForm.constructor | components/vm-clone-drawer.tsx:34-37 | empty name and region, include data on, auto start off |
| CloneDrawer.CloneForm.SetName | components/vm-clone-drawer.tsx:134 | sets the name only |
| CloneDrawer.CloneForm.SelectRegion | components/vm-clone-drawer.tsx:141 | sets the region only |
| CloneDrawer.CloneForm.SetSwitches | components/vm-clone-drawer.tsx:171-181 | sets the two switches only |
| CloneDrawer.CloneForm.HandleClone | components/vm-clone-drawer.tsx:49-76 | without a name or a region, nothing is sent and nothing changes; otherwise the payload of the entered values is sent; the form resets unless the callback threw, in which case it keeps its values and an alert is shown |
| LogsDrawer.LevelNames | components/vm-logs-drawer.tsx:135-139 | the four level names are distinct and none is "all" |
| LogsDrawer.FilterAllKeepsAll | components/vm-logs-drawer.tsx:37 | with "all", every entry is shown |
| LogsDrawer.FilterByLevel | components/vm-logs-drawer.tsx:37 | with a level, every shown entry has that level and an entry of the input is shown exactly when it has it; filtering again changes nothing |
| LogsDrawer.FilterByLevelKeepsOrder | components/vm-logs-drawer.tsx:37 | the shown entries keep the input's order and multiplicity: a concatenation filters part by part, one entry shows itself exactly when it has the level, no entries show none, and each entry of the level is shown as often as the input holds it |
| LogsDrawer.UnknownFilterShowsNothing | components/vm-logs-drawer.tsx:37 | a filter that is neither "all" nor a level name shows nothing |
| LogsDrawer.Lines | components/vm-logs-drawer.tsx:146-150 | one line per entry; when no entry's parts hold a newline, no line does |
| LogsDrawer.LineHasNoNewline | components/vm-logs-drawer.tsx:149 | a line has no newline when its parts have none |
| LogsDrawer.ExportSplitsIntoLines | components/vm-logs-drawer.tsx:146-151 | splitting the export at newlines gives back one line per entry of the unfiltered list; the text ends with the last line, without a trailing newline; no entries give "" |
| LogsDrawer.Separators | components/vm-logs-drawer.tsx:195 | one separator flag per entry |
| LogsDrawer.SeparatorPlacement | components/vm-logs-drawer.tsx:180-197 | n entries get n - 1 separators (none for no entry), after every entry but the last |
| LogsDrawer.SampleLogsShape | components/vm-logs-drawer.tsx:45-88 | six entries with distinct ids, at 5, 10, ..., 30 minutes before now, so strictly newest first |
| LogsDrawer.StepAsWritten | components/vm-logs-drawer.tsx:40-130 | as written, Refresh only sets the loading flag |
| LogsDrawer.RefreshNeverFinishes | components/vm-logs-drawer.tsx:126 | as written, once loaded, Refresh leaves the drawer loading and showing nothing, whatever follows short of reopening it |
| LogsDrawer.StillLoading | components/vm-logs-drawer.tsx:40-93 | with no timer pending, as written, nothing but reopening clears the loading flag |
| LogsDrawer.Step | components/vm-logs-drawer.tsx:40-130 | Refresh starts loading and schedules the timer; a due timer brings the sample logs and clears loading; a filter change sets the filter only |
| LogsDrawer.RefreshFinishes | components/vm-logs-drawer.tsx:126 | with the reloading Refresh, the next timer brings fresh logs back, shown under the current filter |
| LogsDrawer.LogsPanel.constructor | components/vm-logs-drawer.tsx:33-35 | no logs, not loading, filter "all", no timer pending |
| LogsDrawer.LogsPanel.Open | components/vm-logs-drawer.tsx:40-43 | opening follows `Step`: it starts loading and schedules the timer |
| LogsDrawer.LogsPanel.FireTimer | components/vm-logs-drawer.tsx:44-91 | the timer follows `Step`: the sample logs replace the list and loading ends |
| LogsDrawer.LogsPanel.Refresh | components/vm-logs-drawer.tsx:126 | Refresh follows the corrected `Step` |
| LogsDrawer.LogsPanel.SetFilter | components/vm-logs-drawer.tsx:130 | a filter change follows `Step` |
| SshDrawer.SshCommandReadsBack | components/vm-ssh-drawer.tsx:33 | the SSH command reads back as exactly its user, host and port, so distinct inputs give distinct commands |
| SshDrawer.HostPortReadsBack | components/vm-ssh-drawer.tsx:33 | `<host> -p <port>` reads back as its host and port |
| SshDrawer.ScpCommandReadsBack | components/vm-ssh-drawer.tsx:34 | the SCP command reads back as exactly its user, host and port |
| SshDrawer.DestinationReadsBack | components/vm-ssh-drawer.tsx:34 | `file.txt <user>@<host>:~/` reads back as its user and host |
| SshDrawer.CommandsAgree | components/vm-ssh-drawer.tsx:33-34 | the SSH and SCP commands of one drawer address the same user, host and port |
| SshDrawer.DefaultCommands | components/vm-ssh-drawer.tsx:28-34 | with untouched inputs, the commands are `ssh ubuntu@<ip> -p 22` and `scp -P 22 file.txt ubuntu@<ip>:~/` |
| SshDrawer.RenderAvailability | components/vm-ssh-drawer.tsx:59-166 | the drawer renders exactly when a VM is selected; the badge reads "Available" exactly when the status is "Running" and "Unavailable" otherwise; Download Private Key, Add Key, Open Web Terminal and Test Connection are disabled exactly when it is not; Generate New Key Pair never is |
| SshDrawer.RenderCommands | components/vm-ssh-drawer.tsx:33-34 | the commands shown are those of the VM's address and the current inputs, and they change whenever an input does |
| SshDrawer.AvailableIffRunning | components/vm-ssh-drawer.tsx:62-67 | for a dashboard VM, the drawer's actions are available exactly when its status is Running |

## Left out

- `fetch`, the SQL client, JSON bodies and `NextResponse`. Their outcomes are parameters. The datastore is a sequence of rows.
- app/api/vms/[id]/route.ts (PUT and DELETE of one record) is not part of this model. The store sees only its outcomes.
- app/api/debug/route.ts is not part of this model: it only reports diagnostics.
- components/navigation.tsx is not part of this model: it is presentation.
- components/vm-details-drawer.tsx is not part of this model. It is presentation plus a `confirm()` dialog, and its usage colours repeat the dashboard's.
- JSX, layout and CSS class strings beyond the colour choices. The world map's status badge classes, the visualizer's status badge classes (`getStatusColor`, five `bg-*-100 text-*-800` pairs and a gray default) and the logs drawer's level badge classes are not modelled.
- The theme toggle, the clipboard copy and the Blob download of the export. The exported text itself is modelled.
- `Date.now`, `toISOString` and `toLocaleString`:
  - The fallback id and timestamps are inputs (`localId`, `now`).
  - The endpoint's error timestamp is an input text.
  - A log timestamp is rendered by a function passed in.
- `setTimeout`. The one-second timer of the logs drawer is the `TimerFired` event, fired by `LogsDrawer.LogsPanel.FireTimer`.
- Closing a drawer (`onOpenChange(false)`). Opening the logs drawer is `LogsDrawer.LogsPanel.Open`.
- Concurrency:
  - React's batching and scheduling;
  - stale closures (the `vms` captured by `updateVMStatus`);
  - overlapping in-flight requests.

  The model runs one operation at a time, each on the state it starts from.
- Floating point. Usage figures are integers, and JSON numbers are integers in `VmsRoute.Json`.
- The SQL column types, constraints and coercions of the stored values. Rows store the JSON values as sent.
- The order among rows with equal `created_at`. SQL leaves it open, and the model keeps table order for ties.
- The gray or white default branches of the colour switches. A `Status` value cannot reach them; `Dashboard.StatusColorMatchesMap` and `WorldMap.GetStatusColor` state they are never produced.
- VmStore.LocalRecord: one instant `now` stands for both `new Date()` calls of the fallback record, so `createdAt` and `updatedAt` are equal in the model where the two clock reads may differ by a millisecond.
- LogsDrawer.SampleLogs: one instant `now` stands for the six `Date.now()` calls, so the entries are exactly five minutes apart; with six reads they are apart by five minutes plus the time between the reads, and still newest first.
- CloneDrawer.Payload: each draw is a real number in [0, 1), not a float. The ranges therefore hold for every real draw, not just for the floats `Math.random` can return.

## Findings

| source | as written | input that shows it | evidently intended | confidence | as-written member | corrected member |
|---|---|---|---|---|---|---|
| hooks/use-vms.ts:140-153 | the optimistic status write is reverted only when the response is not ok; a request that rejects (network failure), or an ok response whose body does not parse, goes straight to the catch clause and keeps the new status | live mode, cache `[vm-001 Running]`, `updateVMStatus("vm-001", "Terminated")`, and the request rejects with `TypeError("Failed to fetch")`: the cache shows Terminated while the service still has Running | every failed update restores the record, as the "Revert optimistic update on error" comment and the rollback on an HTTP error intend | not executed | VmStore.UpdatedStatusAsWritten, VmStore.RejectedUpdateKeepsOptimisticStatus | VmStore.UpdatedStatus, VmStore.Store.UpdateVMStatus, Dashboard.Page.HandleUpdateVMStatus |
| components/vm-logs-drawer.tsx:126 | the Refresh button only sets `loading`; the effect that loads logs and clears the flag runs only when the VM or the open flag changes, so no reload is scheduled | open the drawer, wait for the logs, press Refresh: the spinner stays until the drawer is closed and reopened | Refresh reloads the logs like opening does: it shows the spinner, then fresh logs | not executed | LogsDrawer.StepAsWritten, LogsDrawer.RefreshNeverFinishes | LogsDrawer.Step, LogsDrawer.RefreshFinishes, LogsDrawer.LogsPanel.Refresh |
