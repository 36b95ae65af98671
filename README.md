# rita-bl in Dafny

rita-bl keeps a local cache of threat-intelligence blacklists (IP addresses,
hostnames, URLs) and answers membership queries against it. Feeds ("lists")
are fetched when their cache time has run out. Their entries are validated
per entry type and written in batches to a storage driver (MongoDB or
ClickHouse). A query is answered from the cache plus any registered remote
procedure calls (RPCs), for example Google Safe Browsing.

The repository mixes two generations of its API that do not compile
together, and the model keeps them apart:

- **Older API.** A list has one `BlacklistedType`, `GetMetadata()` and a
  single output channel. This covers `list/list.go`, the three type
  singletons, `blacklist.go`, `sources/sources.go` and
  `database/database.go`. The Dafny modules are `ListPipeline`,
  `ListHostname`, `ListIP`, `ListURL`, `Blacklist`, `Sources` and
  `Database`.
- **Newer API.** A list declares `Metadata.Types` and fills one channel per
  entry type. This covers `list/entry.go`, the feeds under `sources/`, the
  Safe Browsing RPC and the two drivers. The Dafny modules are `ListEntry`,
  `Feeds`, `ListsLineSeparated`, `ListsCustom`, `ListsMyIPms`,
  `SourcesMyIPms`, `ListsMdl`, `MockDummyList`, `RPCSafeBrowsing`,
  `Storage`, `MongoDB` and `ClickHouse`.

Shared modeling choices:

- A Go channel is a `Streams.Chan` object holding the items sent so far and
  a `closed` flag. `Send` and `Close` require the channel to be open, so
  every channel is closed at most once. A `sync.WaitGroup` is a counter that
  `Done` decrements.
- The error channel's contents are the errors the error handler receives.
- A fetch (HTTP download, zip extraction, `io.ReadCloser` factory) is given
  by its outcome: the scanner's lines, or the error that stopped it.
- The clock is a parameter `now`: one reading stands for every `time.Now()` of an update run.
- `net.ParseIP`, `url.ParseRequestURI` and `json.Marshal` are function
  parameters.
- A storage server is an abstract state holding registered list metadata
  and the documents per entry type. A driver handle records every call it
  makes in `log`.
  - MongoDB and ClickHouse: `answer(n)` is the server's answer to the n-th
    call, either success or an error.
  - The older `Database.Store` gets a fault function on calls instead.
- A Go nil dereference (a panic) ends the run. The model reports it as a
  returned `panicked` flag.
- `ExtraData` is a map to a small variant, `Str` or `Int`, because the
  myip.ms feeds store an integer `id` in it.

## Model

| member | source | states |
|---|---|---|
| Base.Add64 | list/list.go:33 | int64 addition: whenever the exact sum fits in int64, the result is that sum |
| Base.Add64Congruent | list/list.go:33 | the wrapped sum is congruent to the exact sum mod 2^64, and it is the only int64 that is |
| GoStrings.Split | list/entry.go:58 | `strings.Split` on a non-empty separator yields at least one piece |
| GoStrings.SplitConcat | list/entry.go:58 | a separator in the input splits it into the pieces of the part before and the pieces of the part after |
| GoStrings.SplitJoin | list/entry.go:58 | splitting pieces joined by a separator none of them contains gives back the pieces |
| GoStrings.SplitPieces | list/entry.go:58 | no piece of a split contains the separator, and every piece's characters come from the input |
| GoStrings.ByteLength | list/entry.go:45 | `len` on a string: its UTF-8 byte count, between one and four bytes per character |
| GoStrings.ByteLengthAscii | list/entry.go:45 | the byte count equals the character count exactly when every character is ASCII |
| GoStrings.Utf8FirstByte | list/entry.go:55 | the byte `hostname[i]` at a character's index: the character itself below 0x80, otherwise a lead byte in the range of its encoding's length |
| GoStrings.ByteLengthConcat | list/entry.go:45 | the byte length of a concatenation is the sum of the byte lengths |
| GoStrings.ByteLengthRepeat | list/entry.go:45 | n copies of a character take n times its UTF-8 length |
| GoStrings.TrimPrefix | sources/lists/mdl.go:101 | with the prefix present, prefix + result is the input; otherwise the result is the input |
| GoStrings.TrimSuffix | sources/lists/mdl.go:103 | with the suffix present, result + suffix is the input; otherwise the result is the input |
| GoStrings.RemoveSpace | sources/lists/myipms.go:62-67 | the result has no whitespace and is the input when the input had none |
| GoStrings.RemoveSpaceConcat | sources/lists/myipms.go:62-67 | removing whitespace from a concatenation removes it from each part and joins the results |
| GoStrings.RemoveSpaceChar | sources/lists/myipms.go:62-67 | a single character is dropped exactly when it is whitespace and kept otherwise, so with RemoveSpaceConcat every other character is kept in order |
| GoStrings.SplitCount | sources/lists/myipms.go:76 | splitting on one character gives one piece more than the string has occurrences of it |
| GoStrings.ReplaceAllCount | sources/lists/myipms.go:75 | after replacing every '#' by ',', the commas are the old commas plus the old '#'s |
| GoStrings.ReplaceAll | sources/lists/myipms.go:75 | same length; each occurrence of the old character becomes the new one and everything else is kept |
| GoStrings.ParseInt | list/entry.go:97 | base-10 int64 parse: results lie in the int64 range; empty input and non-digits (apart from a leading sign) fail |
| GoStrings.ParseIntItoa | list/entry.go:97 | the decimal rendering of any n below 2^63 parses back to n |
| GoStrings.ItoaInjective | list/entry.go:97 | distinct numbers have distinct decimal renderings |
| GoStrings.ScanLinesJoin | sources/lists/lineSeperated.go:51-57 | the split function `bufio.ScanLines` over newline-terminated lines without carriage returns yields exactly those lines |
| ListEntry.NewBlacklistedEntry | list/entry.go:29-35 | the entry carries the given index and source, with empty extra data |
| ListEntry.FirstSpecialChar | list/entry.go:48-53 | -1 iff every character is in [A-Za-z0-9._-]; otherwise the index of the first character that is not |
| ListEntry.CheckLabelsPass | list/entry.go:59-69 | the label loop passes iff every label has 1..63 characters and neither starts nor ends with '-' |
| ListEntry.ValidateHostnameCorrect | list/entry.go:44-72 | validateHostname accepts iff the length is 1..253, all characters are allowed and every dot-separated label is valid (allowed characters are ASCII, so bytes and characters count alike on accepted names) |
| ListEntry.HostnameLengthRejected | list/entry.go:45-47 | an empty name or one over 253 UTF-8 bytes fails with the length error |
| ListEntry.InvalidCharRejected | list/entry.go:48-56 | within the byte bound, a disallowed character makes validation fail with the invalid-character error for the first one, naming the first UTF-8 byte of that character as `%c` prints it |
| ListEntry.ExampleWideName | list/entry.go:45-47 | 200 "a" and 30 "é" (230 characters, 260 bytes) fail with the length error |
| ListEntry.ExampleAccentedName | list/entry.go:54-56 | "é.com" fails with the invalid-character error naming "Ã", the first byte of "é" |
| ListEntry.EmptyLabelRejected | list/entry.go:58-62 | a leading dot, a trailing dot or two adjacent dots give an empty label, which is rejected |
| ListEntry.EdgeMinusRejected | list/entry.go:63-68 | a '-' at the start or end of the name or next to a dot is rejected |
| ListEntry.LongLabelRejected | list/entry.go:60-62 | a label of more than 63 characters is rejected wherever it sits |
| ListEntry.JoinedLabelsValid | list/entry.go:44-72 | valid labels joined with dots are accepted when the whole name has 1..253 allowed characters |
| ListEntry.ExampleSimple | list/entry_test.go:20 | "simple" is a valid hostname |
| ListEntry.ExampleDots | list/entry_test.go:21-22 | "." and ".." are rejected |
| ListEntry.ExampleGoogle | list/entry_test.go:23 | "google.com" is valid |
| ListEntry.ExampleMinusEnd | list/entry_test.go:24 | "test-.com" is rejected |
| ListEntry.ExampleInnerMinus | list/entry_test.go:25 | "test-thing.com" is valid |
| ListEntry.ExampleMinusStart | list/entry_test.go:26 | "-test.com" is rejected |
| ListEntry.ExampleSpecialChar | list/entry_test.go:27 | "test!.com" fails with the invalid-character error for '!' |
| ListEntry.ExampleSubdomain | list/entry_test.go:28 | "test.test.com" is valid |
| ListEntry.ValidateIP | list/entry.go:78-84 | accepts iff the IP parser accepts; otherwise the parse error |
| ListEntry.CheckHost | list/entry.go:106-109 | accepts iff the host is a valid hostname or a parsable IP; otherwise the invalid-host error |
| ListEntry.EmptyPortRejected | list/entry.go:95-100 | a ':' followed by an empty port fails with the port-parse error (test "https://127.0.0.1:/asdf") |
| ListEntry.NumericPort | list/entry.go:95-105 | a port above 65536 fails with the range error; otherwise the verdict is the host check of the part before ':' |
| ListEntry.EmptyHostRejected | list/entry.go:104-109 | when the IP parser rejects "", an empty host is rejected with the host error, bare or as ":80" |
| ListEntry.Port65536Accepted | list/entry.go:101 | as written, "127.0.0.1:65536" passes validation |
| ListEntry.ValidateURLIntendedPorts | list/entry.go:101-103 | with the bound at 65535, accepted ports are 0..65535, and port 65536 is the only case where the verdict differs from the code as written |
| ListEntry.Validators.Init | list/entry.go:113-118 | the validator map has exactly the keys hostname, ip and url, each bound to its own validator |
| ListHostname.HostnameType.Type | list/hostname.go:17 | the type name is "hostname" |
| ListHostname.HostnameType.ValidateIndex | list/hostname.go:20-22 | every index is accepted |
| ListHostname.Globals.constructor | list/hostname.go:6 | the singleton starts out nil |
| ListHostname.Globals.BlacklistedHostnameType | list/hostname.go:9-14 | the first call creates a fresh singleton; later calls return the stored one, which stays stored |
| ListHostname.Globals.SingletonStable | list/hostname.go:9-14 | two calls return the same object |
| ListIP.IPType.Type | list/ip.go:17 | the type name is "ip" |
| ListIP.IPType.ValidateIndex | list/ip.go:20-22 | every index is accepted |
| ListIP.Globals.constructor | list/ip.go:6 | the singleton starts out nil |
| ListIP.Globals.BlacklistedIPType | list/ip.go:9-14 | created only when nil, then returned unchanged |
| ListIP.Globals.SingletonStable | list/ip.go:9-14 | two calls return the same object |
| ListURL.URLType.Type | list/url.go:17 | the type name is "url" |
| ListURL.URLType.ValidateIndex | list/url.go:20-22 | every index is accepted |
| ListURL.Globals.constructor | list/url.go:6 | the singleton starts out nil |
| ListURL.Globals.BlacklistedURLType | list/url.go:9-14 | created only when nil, then returned unchanged |
| ListURL.Globals.SingletonStable | list/url.go:9-14 | two calls return the same object |
| ListPipeline.ValidateIndexAcceptsAll | list/hostname.go:16-22 | each of the three types accepts every index, and its name is hostname, ip or url |
| ListPipeline.TypesAcceptAll | list/hostname.go:20-22 | the validator a list's type provides accepts everything |
| ListPipeline.ShouldFetchDue | list/list.go:32-34 | without overflow, a list is due iff now > LastUpdate + CacheTime |
| ListPipeline.ZeroCacheTimeAlwaysDue | list/list.go:32-34 | with CacheTime 0, any past LastUpdate is due |
| ListPipeline.ShouldFetchWraps | list/list.go:33 | the int64 sum wraps: LastUpdate = MaxInt64 with CacheTime 1 is due at every time but the minimum |
| ListPipeline.List.constructor | list/list.go:7-17 | a list with the given type, metadata and feed |
| ListPipeline.List.FetchData | list/list.go:12-16 | sends the feed in order and closes the entry channel; sends its errors and leaves the error channel open |
| ListPipeline.ValidateHelper | list/list.go:51-65 | as written: forwards the entries whose validation fails, reports a nil error for each passing one, then closes the output |
| ListPipeline.ValidateHelperIntended | list/list.go:36-39 | forwards the entries that pass and reports the errors of the others, then closes the output |
| ListPipeline.SelectedDivertedPartition | list/list.go:55-63 | the forwarded entries and the reported errors together number the input entries |
| ListPipeline.SelectedMembers | list/list.go:57-59 | an entry is forwarded iff it is in the input and its validation outcome is the forwarded one |
| ListPipeline.SelectedConcat | list/list.go:55-59 | the filter distributes over concatenation, so forwarded entries keep their input order |
| ListPipeline.ValidateHelperForwardsNothing | list/list.go:58-62 | as written, against any real type (which accepts all), nothing is forwarded and one nil error per entry is reported |
| ListPipeline.ValidateHelperIntendedForwardsAll | list/list.go:36-39 | as intended, against an accept-all type, every entry is forwarded and no error is reported |
| ListPipeline.FetchAndValidateEntries | list/list.go:40-49 | as written, the returned channel ends closed and empty; the error channel gets the feed errors plus one nil per entry |
| ListPipeline.FetchAndValidateEntriesIntended | list/list.go:40-49 | as intended, the returned channel ends closed holding the whole feed; the error channel gets only the feed errors |
| Sources.Registry.constructor | sources/sources.go:15-18 | both registries start empty |
| Sources.Registry.BootstrapList | sources/sources.go:23-25 | the name is mapped to the factory, overwriting an earlier one; other names are unchanged |
| Sources.Registry.BootstrapRPC | sources/sources.go:28-30 | the RPC is appended to its type's RPCs; other types are unchanged |
| Sources.Registry.AppendNames | sources/sources.go:35-37 | the loop appends every registered name exactly once after the given prefix |
| Sources.Registry.GetAvailableLists | sources/sources.go:33-39 | as written: one empty string per factory, followed by every registered name exactly once |
| Sources.Registry.GetAvailableListsIntended | sources/sources.go:33-39 | every registered name exactly once and nothing else |
| Sources.Registry.CreateList | sources/sources.go:42-48 | nil for an unregistered name; otherwise a fresh list built from the stored factory |
| Sources.Registry.GetRPCs | sources/sources.go:51-53 | the RPCs registered for the type in registration order, or none |
| Database.ToRows | database/database.go:28-36 | one row per entry with the entry's index, list name and extra data |
| Database.Unregister | database/database.go:18-19 | removal keeps exactly the registry rows of other names |
| Database.Uncache | database/database.go:18-19 | removal keeps exactly the cached rows of other lists |
| Database.ReplayConcat | database/database.go:8-26 | replaying a call log is a fold: two logs in a row act like their concatenation |
| Database.Store.GetRegisteredLists | database/database.go:12-13 | the registry, or the fault; state unchanged |
| Database.Store.RegisterList | database/database.go:15-16 | on success the list's metadata is appended to the registry; on failure nothing changes |
| Database.Store.RemoveList | database/database.go:18-19 | on success the list's registry rows and cached rows are gone; on failure nothing changes |
| Database.Store.InsertEntries | database/database.go:21-22 | on success the entries' rows are appended; on failure the fault is sent on the error channel and rows are unchanged |
| Database.Store.FindEntries | database/database.go:24-25 | fails iff the lookup faults; otherwise exactly the cached rows of that type and index |
| Blacklist.RegisteredFromFactories | blacklist.go:95-101 | a list is built exactly for each meta whose name has a factory |
| Blacklist.MissingErrors | blacklist.go:99-101 | every meta yields either a list or a "Could not find a List" error: errors and lists together number the metas |
| Blacklist.LookupMembership | blacklist.go:110-116 | over non-nil lists, the search finds a name iff a registered list has it |
| Blacklist.MissingMembers | blacklist.go:106-122 | a name is to be added iff it is available and no registered list has it |
| Blacklist.MissingConcat | blacklist.go:109-120 | names to add keep the order of the available names |
| Blacklist.Factories | blacklist.go:118 | when every name has a factory, one list per name from that factory |
| Blacklist.RefreshProtocol | blacklist.go:127-145 | a due registered list sees RemoveList, then RegisterList with LastUpdate = now, then InsertEntries; the first failure ends the sequence |
| Blacklist.CreateProtocol | blacklist.go:152-164 | a due new list sees RegisterList with LastUpdate = now, then InsertEntries unless registering failed |
| Blacklist.FreshListsUntouched | blacklist.go:124-166 | lists that are not due cause no storage call and no error |
| Blacklist.RegistrationsStampedNow | blacklist.go:136-156 | every RegisterList call of a run carries LastUpdate = now, the run's one clock reading |
| Blacklist.RefreshRemovesBeforeRegistering | blacklist.go:131-137 | in the refresh phase every RegisterList directly follows the RemoveList of the same name |
| Blacklist.Fetch | blacklist.go:129 | the validated channel holds what the pipeline inserts; the error channel gets the pipeline's errors |
| Blacklist.GetListsFromMetas | blacklist.go:93-104 | as written: len(metas) nils, then a fresh list per meta with a factory in meta order; one error per meta without |
| Blacklist.GetListsFromMetasIntended | blacklist.go:93-104 | a fresh list per meta with a factory in meta order, no nils; one error per meta without |
| Blacklist.FindRegistered | blacklist.go:110-116 | panics iff the search reaches a nil list; otherwise finds the name iff it is registered |
| Blacklist.GetListsToAdd | blacklist.go:106-122 | panics iff a name's search meets a nil list; otherwise one list per available name that is not registered, fresh with that factory's spec, or nil for a name without a factory such as the empty ones |
| Blacklist.GetListsToAddIntended | blacklist.go:106-122 | over the real available names, one fresh list per name that is not registered, distinct objects |
| Blacklist.GetListsToAddAfterNil | blacklist.go:106-122 | after the nil prefix, the search panics iff there is a registered meta and a factory |
| Blacklist.RefreshOne | blacklist.go:127-145 | one registered list: the storage calls and errors of the refresh protocol, and LastUpdate set iff it was due |
| Blacklist.CreateOne | blacklist.go:152-164 | one new list: the calls and errors of the create protocol, and LastUpdate set iff it was due |
| Blacklist.UpdateRegisteredLists | blacklist.go:124-147 | calls and errors are the refresh protocol list by list up to the first nil list, where it panics |
| Blacklist.CreateNewLists | blacklist.go:149-166 | calls and errors are the create protocol list by list up to the first nil list, where it panics |
| Blacklist.BuildLists | blacklist.go:50-53 | as written: with a registered meta and a factory the run panics; lists built are fresh and distinct |
| Blacklist.UpdateLists | blacklist.go:50-59 | as written: unless "" is a factory name, exactly the missing-factory errors are reported, no storage call is made, and it panics iff there is a meta or a factory |
| Blacklist.RefreshThenCreate | blacklist.go:56-59 | all refreshes come first, then all creations, with their errors in the same order |
| Blacklist.UpdateListsIntended | blacklist.go:50-59 | the storage log is the refresh protocol for the registered lists then the create protocol for the missing names |
| Blacklist.Blacklist.constructor | blacklist.go:22-33 | the controller holds the given handle and registry |
| Blacklist.Blacklist.Update | blacklist.go:37-60 | a failed GetRegisteredLists reports that one error and makes no other call; otherwise the missing-factory errors are reported (and, unless "" names a factory, nothing else), and unless "" names a factory, as written it makes no storage call after GetRegisteredLists and panics iff a list is registered or a factory exists |
| Blacklist.Blacklist.UpdateIntended | blacklist.go:37-60 | after GetRegisteredLists, refresh every registered list and create every missing one, reporting the missing-factory, refresh and create errors in order |
| Blacklist.RPCResults | blacklist.go:76-78 | one result per RPC in registration order |
| Blacklist.AppendRPCResults | blacklist.go:75-78 | the RPC results are appended to this index's value; other keys are unchanged |
| Blacklist.LookupErrorsNone | blacklist.go:67-71 | no error is reported iff every index's cache lookup succeeds |
| Blacklist.Blacklist.CheckEntries | blacklist.go:63-81 | keys are exactly the indexes whose lookup succeeds, each mapped to its cached entries then the RPC results; failures go to the handler |
| Feeds.OnePerLine | sources/lists/myipms.go:69-93 | a line gives at most one entry or one error, exactly one when it is not skipped |
| Feeds.OksConcat | sources/lists/myipms.go:53-94 | entries come out in input-line order |
| Feeds.OksMembers | sources/lists/myipms.go:83-93 | an entry is emitted iff some line parses to it |
| Feeds.EmitParsed | sources/lists/myipms.go:52-94 | the loop sends each parsed entry and each line error, in order |
| Streams.Chan.Close | list/list.go:64 | closing keeps the items and needs an open channel, so a channel is closed once |
| Streams.WaitGroup.Done | database/mongodb.go:197 | the counter goes down by one |
| ListsLineSeparated.LineEntriesConcat | sources/lists/lineSeperated.go:52-64 | entries keep the order of the lines |
| ListsLineSeparated.LineEntriesMembers | sources/lists/lineSeperated.go:57-63 | an entry is emitted iff it is a non-empty line, verbatim |
| ListsLineSeparated.LineEntriesVerbatim | sources/lists/lineSeperated.go:57-63 | with no empty lines, entry k is line k |
| ListsLineSeparated.TestBufferEntries | sources/lists/lineSeperated_test.go:28-47 | the test buffer scans to four addresses, and "10.10.10.10" is among the entries |
| ListsLineSeparated.LineSeparatedList.constructor | sources/lists/lineSeperated.go:17-27 | one type, the given name and cache time, LastUpdate 0 |
| ListsLineSeparated.LineSeparatedList.SetMetadata | sources/lists/lineSeperated.go:30-37 | GetMetadata returns what was set |
| ListsLineSeparated.EmitLines | sources/lists/lineSeperated.go:52-64 | the loop sends the non-empty lines in order |
| ListsLineSeparated.LineSeparatedList.FetchData | sources/lists/lineSeperated.go:42-65 | the Types[0] channel is closed; a data-source error is reported with no entries; otherwise the non-empty lines are sent verbatim |
| ListsCustom.CustomList.constructor | sources/lists/customBL.go:17-27 | one type, the given name, CacheTime 86400 |
| ListsCustom.CustomList.SetMetadata | sources/lists/customBL.go:30-37 | GetMetadata returns what was set |
| ListsCustom.CustomList.FetchData | sources/lists/customBL.go:42-61 | `Types[0]` panics iff the metadata has no type; otherwise that channel is closed and holds the non-empty lines, verbatim and in order |
| ListsMyIPms.IdOf | sources/lists/myipms.go:87-91 | the parsed integer, or -1 when it does not parse |
| ListsMyIPms.ParseLine | sources/lists/myipms.go:59-92 | a line gives the missing-field error or an entry of that source |
| ListsMyIPms.ParseLineSkips | sources/lists/myipms.go:69-72 | a line is skipped exactly when, without its whitespace, it is empty or starts with '#' |
| ListsMyIPms.ParseLineFails | sources/lists/myipms.go:74-81 | a line that is not skipped gives the missing-field error exactly when, without its whitespace, it holds fewer than four ',' or '#', that is fewer than five fields |
| ListsMyIPms.ParseLineIgnoresSpace | sources/lists/myipms.go:61-67 | a whitespace character anywhere in a line does not change what the line gives |
| ListsMyIPms.ParsedFieldsClean | sources/lists/myipms.go:61-67 | whitespace is removed first: the extra data has exactly the keys date, host, country and id, and the index, date, host and country hold no space, comma or '#' |
| ListsMyIPms.ParseRecordLine | sources/lists/myipms.go:75-91 | a record line "ip#date,host,country,id" gives index ip, the three fields, and id parsed or -1 |
| ListsMyIPms.ErrorsMissingField | sources/lists/myipms.go:78-81 | every error a fetch reports for a line is the missing-field error |
| ListsMyIPms.MyIPmsList.constructor | sources/lists/myipms.go:20-28 | name "myip.ms", the single type IP, CacheTime 86400 |
| ListsMyIPms.MyIPmsList.SetMetadata | sources/lists/myipms.go:31-38 | GetMetadata returns what was set |
| ListsMyIPms.MyIPmsList.FetchData | sources/lists/myipms.go:43-95 | the IP channel is closed; a fetch error is reported alone; otherwise the parsed entries and line errors in line order |
| SourcesMyIPms.MyIPmsList.constructor | sources/myipms.go:23-31 | name "myip.ms", the single type IP, CacheTime 86400 |
| SourcesMyIPms.MyIPmsList.SetMetadata | sources/myipms.go:34-41 | GetMetadata returns what was set |
| SourcesMyIPms.MyIPmsList.FetchData | sources/myipms.go:46-119 | the IP channel is closed; a download or unzip error is reported alone; otherwise the same line transform as the newer copy |
| ListsMdl.RunConsistent | sources/lists/mdl.go:83-113 | within one fetch no URL and no IP index is emitted twice |
| ListsMdl.RunErrors | sources/lists/mdl.go:66-77 | an error is reported exactly for each non-empty line with fewer than 9 fields, in line order; an empty line is skipped |
| ListsMdl.RunURLsComplete | sources/lists/mdl.go:79-113 | the URL of every well-formed line is emitted, as a URL or already as an IP |
| ListsMdl.RunURLSeen | sources/lists/mdl.go:113 | the URL of every well-formed line ends up in the seen set |
| ListsMdl.RunSeen | sources/lists/mdl.go:105-113 | only emitted indexes are in the seen set |
| ListsMdl.RunURLsSound | sources/lists/mdl.go:79-112 | each URL entry is "http://" + field 1 (field 2 when field 1 is "-") with date, type and country from its line |
| ListsMdl.RunIPsSound | sources/lists/mdl.go:95-106 | each IP entry is field 2 of a line whose field 1 is not "-", with country trimmed of its trailing quote-comma |
| ListsMdl.RunIPsComplete | sources/lists/mdl.go:95-106 | the host field of a well-formed line whose field 1 is not "-", whose URL and host were not sent before, is sent as an IP with date, type and quote-comma-trimmed country |
| ListsMdl.RunIPsPrefix | sources/lists/mdl.go:63-115 | the IPs sent for the first lines stay at the head of the IPs sent for all lines |
| ListsMdl.LineNewIP | sources/lists/mdl.go:99-106 | a line adds an IP only when well formed with a URL in field 1, and then exactly that IP entry |
| ListsMdl.SeenURLSkipsLine | sources/lists/mdl.go:83-93 | an empty line, or one whose URL was already seen, changes nothing, not even the IP |
| ListsMdl.ProcessLine | sources/lists/mdl.go:63-113 | the loop body sends exactly the effect of one line and returns the updated seen set |
| ListsMdl.ScanLoop | sources/lists/mdl.go:57-114 | the scanner loop sends the IPs, URLs and errors of the whole run |
| ListsMdl.MdlList.constructor | sources/lists/mdl.go:18-29 | name "mdl", types IP and URL, CacheTime 86400 |
| ListsMdl.MdlList.SetMetadata | sources/lists/mdl.go:32-39 | GetMetadata returns what was set |
| ListsMdl.MdlList.FetchData | sources/lists/mdl.go:44-116 | both channels are closed on every path; a fetch error is reported alone; otherwise the run's entries and errors |
| MockDummyList.LittleEndian | sources/mock/dummylist.go:45-46 | four bytes below 256 whose little-endian value is i |
| MockDummyList.DummyIPSmall | sources/mock/dummylist.go:45-47 | IP number i < 256 renders as "i.0.0.0" |
| MockDummyList.DummyIPInjective | sources/mock/dummylist.go:44-49 | the 100 generated addresses are distinct |
| MockDummyList.IPEntries | sources/mock/dummylist.go:44-50 | exactly 100 IP entries |
| MockDummyList.OneFifty | sources/mock/dummylist.go:44-50 | entry 50 is "50.0.0.0" and no other entry is (the single hit the dummy IP search expects) |
| MockDummyList.HostnamesSplit | sources/mock/dummylist.go:59-143 | the constant splits into its 85 lines, none empty, "booking.com" among them |
| MockDummyList.HostnameEntries | sources/mock/dummylist.go:53-55 | one entry per hostname line, in order |
| MockDummyList.SendIPs | sources/mock/dummylist.go:43-50 | the counter loop sends the 100 IP entries |
| MockDummyList.SendHostnames | sources/mock/dummylist.go:53-55 | the loop sends one entry per line |
| MockDummyList.DummyList.constructor | sources/mock/dummylist.go:17-27 | name "Dummy", types IP and hostname, CacheTime 0 |
| MockDummyList.DummyList.SetMetadata | sources/mock/dummylist.go:35-37 | GetMetadata returns what was set |
| MockDummyList.DummyList.FetchData | sources/mock/dummylist.go:42-57 | the IP channel gets the 100 addresses, the hostname channel the 85 hostnames; each is closed |
| RPCSafeBrowsing.GetType | sources/rpc/safebrowsing.go:17-19 | the URL type |
| RPCSafeBrowsing.ShapedKeys | sources/rpc/safebrowsing.go:32-35 | a URL is a key iff one of its lookups found a threat |
| RPCSafeBrowsing.ShapedValue | sources/rpc/safebrowsing.go:36-47 | a URL's value carries the JSON of its threat types in lookup order, from its last lookup with threats |
| RPCSafeBrowsing.ShapedResults | sources/rpc/safebrowsing.go:36-40 | every value has index = its URL, list "google-safebrowsing" and only "ThreatTypes" as extra data |
| RPCSafeBrowsing.Check | sources/rpc/safebrowsing.go:23-51 | a lookup error is returned with no map; otherwise the map of URLs with threats to their results |
| Storage.ChunkSizes | database/mongodb.go:172-196 | batches are non-empty and at most 100000 long, all but the last exactly 100000; no entries means no batch |
| Storage.BatchShape | database/mongodb.go:175-190 | after n entries, n / 100000 full batches have been cut and the rest is pending |
| Storage.BatchesChunks | database/mongodb.go:172-196 | the counter loop cuts the stream into the same batches as fixed-size chunking |
| Storage.BatchFlatten | database/clickhouse.go:220-236 | the full batches followed by the pending ones give back the stream |
| Storage.ChunksFlatten | database/clickhouse.go:214-243 | every entry is in exactly one batch, in order |
| Storage.OutcomeNone | database/clickhouse.go:199-204 | a stop-at-first-error sequence succeeds iff every call succeeds, and then every call is made |
| Storage.MadeFirstFault | database/clickhouse.go:199-204 | the calls made are those up to and including the first failure, and its error is the result |
| Storage.MadeConcat | database/clickhouse.go:157-161 | running p then q stops inside p when p fails; otherwise q runs after the whole of p |
| Storage.WithoutIdempotent | database/mongodb.go:158 | clearing a list's documents twice is clearing them once |
| Storage.ClearedDocs | database/mongodb.go:157-162 | clearing touches exactly the collections of the declared types |
| Storage.DocumentsAt | database/mongodb.go:176-180 | each stored record is {Index, List = source name, ExtraData} of its entry |
| MongoDB.TypeSetupCreates | database/mongodb.go:103-126 | a type collection is created iff it is declared and was not in the snapshot; only type collections are touched |
| MongoDB.StoredAll | database/mongodb.go:183-195 | when every bulk succeeds, the stored documents are all batches in order |
| MongoDB.StoredSome | database/mongodb.go:183-186 | a document is stored iff its batch's bulk run succeeded |
| MongoDB.InsertedAll | database/mongodb.go:172-196 | when every bulk succeeds, every document is stored and nothing is reported |
| MongoDB.Mongo.GetRegisteredLists | database/mongodb.go:50-57 | one find on the lists collection: its error, or the registered lists |
| MongoDB.Mongo.Found | database/mongodb.go:71-77 | the flag loop finds a name iff it is in the snapshot |
| MongoDB.Mongo.CreateListsCollection | database/mongodb.go:80-95 | create then unique name index, stopping at the first error |
| MongoDB.Mongo.Register | database/mongodb.go:64-100 | snapshot, lists collection only if absent, then the insert; the first failure ends it |
| MongoDB.Mongo.SetupType | database/mongodb.go:104-126 | for a type missing from the snapshot: create plus two indexes, errors ignored |
| MongoDB.Mongo.SetupTypes | database/mongodb.go:103-127 | the per-type setup for every declared type, in order |
| MongoDB.Mongo.RegisterList | database/mongodb.go:60-129 | the list is stored iff no call failed; type collections are set up only after a successful insert |
| MongoDB.Mongo.ClearOne | database/mongodb.go:158-161 | one RemoveAll: on success that collection loses the list's documents |
| MongoDB.Mongo.ClearCache | database/mongodb.go:154-164 | RemoveAll per declared type, stopping at the first error; the types before it are cleared |
| MongoDB.Mongo.RemoveList | database/mongodb.go:132-144 | ClearCache first; the registry entry is removed only if clearing and the remove succeed, and a missing name is an error |
| MongoDB.Mongo.UpdateListMetadata | database/mongodb.go:147-151 | the first document with the name is replaced; a missing name is an error |
| MongoDB.Mongo.RunBulk | database/mongodb.go:183-186 | one bulk run: stored on success, reported on failure |
| MongoDB.Mongo.Absorb | database/mongodb.go:176-189 | one entry queued, and a bulk run when the counter reaches 100000 |
| MongoDB.Mongo.Flush | database/mongodb.go:191-196 | a final bulk run iff entries are pending |
| MongoDB.Mongo.InsertEntries | database/mongodb.go:167-198 | one bulk run per batch of the stream; each succeeded batch is stored, each failure reported; wg.Done once |
| MongoDB.Mongo.FindEntries | database/mongodb.go:201-207 | its error, or the documents of that type with that index |
| ClickHouse.SelectEntriesByIndexQuery | database/clickhouse.go:44-51 | as written, the rendered statement is the create-table statement, not the select |
| ClickHouse.SelectEntriesByIndexQueryIntended | database/clickhouse.go:39-42 | the select-by-index statement for the type |
| ClickHouse.Unnamed | database/clickhouse.go:167 | the delete keeps exactly the lists of other names |
| ClickHouse.Upsert | database/clickhouse.go:176 | under the replacing merge tree, the new row replaces every row of its name |
| ClickHouse.PanicSticks | database/clickhouse.go:216-221 | once the loop has panicked, later entries change nothing |
| ClickHouse.InsertedFollows | database/clickhouse.go:214-243 | the errors reported are exactly the failed calls' errors in order; the calls made are a prefix of the plan, the whole plan unless the run panicked, and a panic happens only on the nil batch a failed PrepareBatch leaves |
| ClickHouse.InsertedOk | database/clickhouse.go:214-243 | when every call succeeds, all rows are sent, nothing is reported and nothing panics |
| ClickHouse.InsertPlanShape | database/clickhouse.go:226-243 | the plan appends every row once, in order, and every Send directly follows an Append, so no empty batch is sent |
| ClickHouse.InsertPlanChunks | database/clickhouse.go:214-243 | the plan is PrepareBatch, then per batch its appends, a send and a new PrepareBatch, with the last send only for a partial batch |
| ClickHouse.ClickhouseDB.ScanRows | database/clickhouse.go:109-116 | one scan per row, stopping at the first failure; on success the rows |
| ClickHouse.ClickhouseDB.GetRegisteredLists | database/clickhouse.go:99-119 | a failed query gives an empty result and no error; otherwise the scanned lists or the scan error |
| ClickHouse.ClickhouseDB.InsertList | database/clickhouse.go:137-150 | PrepareBatch, Append, Send, stopping at the first error; on success the row is upserted |
| ClickHouse.ClickhouseDB.CreateEntryTables | database/clickhouse.go:130-135 | creates each type's table in order, stopping at the first error; on success all exist |
| ClickHouse.ClickhouseDB.CreateListsTableStep | database/clickhouse.go:124-127 | creates the lists table, or returns the error |
| ClickHouse.ClickhouseDB.RegisterList | database/clickhouse.go:122-153 | the lists table and every type table are ensured before the metadata row, returning on the first error |
| ClickHouse.ClickhouseDB.ClearCache | database/clickhouse.go:195-206 | DELETE per declared type, stopping at the first failing type |
| ClickHouse.ClickhouseDB.RemoveList | database/clickhouse.go:156-172 | ClearCache first; the registry rows are deleted only if clearing and the delete succeed |
| ClickHouse.ClickhouseDB.UpdateListMetadata | database/clickhouse.go:175-192 | inserts the row again, which replaces the old one on success |
| ClickHouse.ClickhouseDB.FindEntries | database/clickhouse.go:248-270 | as written it always returns no entries, and a successful query creates the type's table |
| ClickHouse.ClickhouseDB.FindEntriesIntended | database/clickhouse.go:248-270 | a failed query gives an empty result and no error; otherwise the rows of that type with that index |
| ClickHouse.ClickhouseDB.InsertOne | database/clickhouse.go:220-236 | one loop iteration: Append, then at 100000 a send and a new batch |
| ClickHouse.ClickhouseDB.SendPending | database/clickhouse.go:238-243 | the final send iff the counter is non-zero |
| ClickHouse.ClickhouseDB.InsertEntries | database/clickhouse.go:209-245 | log, errors and stored rows follow the batching run; it panics iff an Append or Send meets the nil batch of a failed PrepareBatch; wg.Done once on every path |

## Left out

- Connection setup is not modelled: `NewMongoDB`, `NewSecureMongoDB`, `NewClickhouseDB` and `Init`. A handle is given open.
- Blacklist.Blacklist.constructor: `NewBlacklist` calls `Init` on a nil handle (blacklist.go:24-27). That panics in Go. The model takes an open handle instead.
- Concurrency is not modelled: goroutines, unbuffered hand-off, the error fan-in goroutine of `createErrorChannel`, and the fetch left running when `RemoveList` fails. Each fetch runs to completion before its list's storage calls.
- Network and archive I/O are not modelled: HTTP, zip, `util.ReadZippedFileFromWeb`, `sources/lists/dns-bh.go` and `sources/lists/feodo.go`. A fetch is given as its list of lines or its error.
- Mid-stream scanner read errors are not modelled. `scanner.Err()` is nil whenever `Scan()` returns true, so the error branch inside each scanner loop cannot fire.
- Foreign libraries are function parameters or are not modelled: `net.ParseIP`, `url.ParseRequestURI`, `json.Marshal` and the Safe Browsing library. `net.IP.String` is modelled only for the dotted-quad addresses the dummy list builds.
- SQL text, templates, BSON and the `mgo`/`clickhouse-go` APIs are not modelled. Statements and calls are datatypes.
- Ordering across channels is not captured, because each channel is its own sequence. For example, the dummy list closes its IP channel before sending any hostname.
- MongoDB.Mongo.RunBulk, MongoDB.Mongo.InsertEntries: `Bulk()` is never made unordered (database/mongodb.go:173, database/mongodb.go:188), so an ordered bulk run that fails stores the documents before the failing one. The model stores none of that batch.
- MongoDB.StoredSome: for the same reason, a document of a failed batch may in fact be stored. The lemma states the all-or-nothing batch of the model.
- MongoDB: unique indexes are not enforced. `Insert` into the lists collection succeeds or fails only as the server's answer says.
- MongoDB.Mongo.SetupType: the errors of the type-collection setup are ignored, as in the code. The created collection is recorded when the server answers success to the create.
- ClickHouse.ClickhouseDB.InsertEntries: a failed `Append` leaves the row out of the batch. A panic in the insert goroutine ends the whole process in Go; here it is the returned `panicked` flag.
- ClickHouse: `rowIter.Close` and `rowIter.Err` are not modelled. The `ReplacingMergeTree` is modelled as already merged (`Upsert`).
- MongoDB and ClickHouse: the server's answer is a function of the call's position. It does not look at the server state beyond what each operation reads.
- Database.Store: this model of the `database.Handle` interface fails atomically. A failing `RemoveList` leaves the registry and the cached rows unchanged, and a failing `InsertEntries` stores none of its entries. Both drivers do less: their `RemoveList` clears the list's cached entries before the removal that fails (database/mongodb.go:132-144, database/clickhouse.go:156-172), and their `InsertEntries` keep the batches stored before a failing one.
- Database.Store: the fault is a function of the call itself (`fault`, `findFault`), so two identical calls get the same answer. For example, a duplicate index in `CheckEntries` is looked up with the same outcome twice.
- RPCSafeBrowsing.Check requires at most one lookup result per URL, as the library returns. With more results than URLs, the Go code indexes `urls` out of range and panics as soon as a result past the last URL holds a threat (sources/rpc/safebrowsing.go:32-35); that panic is not modelled.
- The shared `alreadyBlacklisted` set in `mdl.go` holds URLs and IPs together. The model keeps that, so an IP equal to an earlier URL index is skipped, as in the code.
- The update run has exactly two phases, refresh then create (blacklist.go:50-59). No phase removes a registered list that no factory provides any more; such a list only produces the "Could not find a List named …" error on each run.
- `getListsFromMetas` rebuilds each registered list from its factory by name (blacklist.go:93-104). It never copies the stored metadata into it, so `ShouldFetch` for a registered list reads the factory's `LastUpdate` and `CacheTime`, not the stored ones. The model does the same: a registered list's spec is its factory's.
- `CheckEntries` runs each registered RPC once per index and appends its result (blacklist.go:75-78). An RPC returns a value and cannot fail.
- A list's `LastUpdate` is set to now before `RegisterList` and before `InsertEntries`, both when refreshing (blacklist.go:136-137) and when creating (blacklist.go:155-156).
- ClickHouse's `GetRegisteredLists` and `FindEntries` return an empty result and no error when their query fails (database/clickhouse.go:99-106, database/clickhouse.go:248-257).
- The scanner loops (sources/lists/lineSeperated.go:51-57, sources/lists/customBL.go:47-53, sources/lists/mdl.go:57-63, sources/lists/myipms.go:52-58, sources/myipms.go:76-82) are modelled as reading every line. A real `bufio.Scanner` stops at a line longer than `bufio.MaxScanTokenSize` (64 KiB). Each loop looks at `Err()` only inside its body, where it is always nil, so in Go the rest of such a feed would be dropped without an error.
- Blacklist: Go reads the clock afresh in `ShouldFetch` for each list (list/list.go:33) and for each registration (blacklist.go:136, blacklist.go:155). The model takes one reading `now` for the whole run. So lists of one run can get different `LastUpdate` values in Go, and a list can become due while the run is under way; `RegistrationsStampedNow` holds only for the single reading.
- Strings are sequences of characters. Go's byte view is written out only in `validateHostname` (list/entry.go:45, list/entry.go:55). Every other length test in the modelled code compares with zero, and every other indexed byte is compared with an ASCII character, so there characters and bytes give the same answer.
- `database/database.go` and `sources/rpc/rpc.go` are interfaces. Only their types are borrowed.
- Test files are used only as sources of properties and examples.

## Findings

| source | as written | input that shows it | evidently intended | confidence | as-written member | corrected member |
|---|---|---|---|---|---|---|
| list/list.go:58 | forwards an entry when `ValidateIndex` returns an error, and sends the nil error otherwise | any entry of any type: all three types accept everything, so nothing is forwarded and a nil error is sent per entry | forward the entries that validate and report the errors of the rest (doc comment at list/list.go:36-39) | not executed | ListPipeline.ValidateHelperForwardsNothing | ListPipeline.ValidateHelperIntendedForwardsAll |
| blacklist.go:94 | `make([]list.List, len(metas))` followed by `append` gives len(metas) nil lists first | one registered meta and one factory: `getListsToAdd` calls `GetMetadata` on a nil list and panics before any storage call | `make([]list.List, 0, len(metas))` | not executed | Blacklist.Blacklist.Update | Blacklist.Blacklist.UpdateIntended |
| sources/sources.go:34 | `make([]string, len(listFactories))` followed by `append` gives empty names first | one factory "Dummy": `GetAvailableLists` returns ["", "Dummy"] | every name once, capacity not length | not executed | Sources.Registry.GetAvailableLists | Sources.Registry.GetAvailableListsIntended |
| list/entry.go:101 | `portNumber > 65536` accepts port 65536 | "127.0.0.1:65536" with the IP parser accepting "127.0.0.1" | `portNumber > 65535` | not executed | ListEntry.Port65536Accepted | ListEntry.ValidateURLIntendedPorts |
| database/clickhouse.go:49 | `chSelectEntriesByIndexQuery` executes the create-table template | any `FindEntries` call: the query creates the table and returns no rows | execute `chSelectEntriesByIndexQueryTemplate` | not executed | ClickHouse.ClickhouseDB.FindEntries | ClickHouse.ClickhouseDB.FindEntriesIntended |
