# USGS M2M API client — request rules, customization serialiser and login classifier

This project models the C++ client for the USGS Machine-to-Machine (M2M) JSON API.

- **Request façades** (datasets, scenes, downloads, orders, TRAM orders, login, miscellaneous). Each operation first checks its arguments locally. A failed check produces an error record with code -1 and no request. Otherwise it builds a fresh nlohmann JSON object by guarded insertions and posts it to `API_URL + path`. Each operation is modelled as a function or method that returns a `Request`:
  - `LocalError(code, message)`;
  - `Send(path, payload)`;
  - `SendWithoutBody(path)`.
- **`datasetCustomizationToJson` / `datasetSetCustomizations`**. These prune empty leaves, arrays and objects at every level, then group the surviving entries by dataset name.
- **The first API version's client object** (`usgsm2m.cpp`):
  - its cURL header list (`setup_curl`, `setAuthToken`);
  - the response buffer fed by `WriteCallback`;
  - the inline classification of the login response: transport, then HTTP status, then the parsing `try` block, then the API's `errorCode`, then success.

JSON values are the datatype `Json.JSON` (null, booleans, integers, strings, arrays, objects). A payload is described by a table of candidate members (`Json.Fields`): each key maps to the value its guard lets through, or to `None`. `Json.ObjectOf` builds the object. `Json.Carries(j, table)` says that `j` holds exactly the table's present members. Following nlohmann, a payload that received no insertion is `null`, not `{}`; `Json.Payload(j, table)` adds this to `Carries`, and together they fix the document (`Json.CarriesUnique`).

Modules and files:
- `json.dfy`: `Json` (JSON values and insertion idioms) and `Requests` (the request outcome and the "required argument" helpers).
- `dataset.dfy`: `DatasetApi`.
- `customization.dfy`: `DatasetCustomization`.
- `scene.dfy`: `SceneApi`.
- `download.dfy`: `DownloadApi`.
- `misc.dfy`: `MiscApi`.
- `tram.dfy`: `TramApi`.
- `login.dfy`: `LoginApi`, the versions in `usgsm2m_login.cpp`.
- `client.dfy`: `ClientCore`, the versions in `usgsm2m.cpp`.

## Model

| member | source | states |
|---|---|---|
| Json.ObjectOf | src/usgsm2m_dataset.cpp:63-84 | a run of guarded insertions into a default json yields exactly the table's present members, and is either null or a non-empty object |
| Json.ObjectOfNull | src/usgsm2m_dataset.cpp:44-55 | the payload is null exactly when every guard kept its key out |
| Json.ObjectOfPresent | src/usgsm2m_dataset.cpp:18-19 | one member let through makes the payload an object |
| Json.CarriesKeys | src/usgsm2m_dataset.cpp:74-79 | a payload's keys are exactly the table keys whose value is present |
| Json.CarriesUnique | src/usgsm2m_dataset.cpp:74-79 | the table determines the payload: two null-or-non-empty documents with the same members are equal |
| Json.TrackInsert | src/usgsm2m_dataset.cpp:350-352 | one more `if (v) obj[key] = *v;` keeps the object and its table in step |
| Json.ObjectOfMembers | src/usgsm2m_dataset.cpp:346-416 | an object filled by tracked insertions is the table's payload, null when nothing was inserted |
| Json.CarriesNoEmptyContainer | src/usgsm2m_dataset.cpp:346-416 | a payload whose present members hold no empty container holds none itself |
| Json.Items | src/usgsm2m_download.cpp:20-25 | a push_back loop's array has one item per element, in input order |
| Json.StrArr | src/usgsm2m_dataset.cpp:407 | a string vector becomes an array of the same strings in the same order |
| Requests.Missing | src/usgsm2m_dataset.cpp:107-115 | a missing required argument gives code -1 and the message "'<field>' is required for <operation>." |
| Requests.RequireOne | src/usgsm2m_dataset.cpp:104-120 | a single required string: an error iff it is empty, otherwise exactly the one-key object |
| DatasetApi.Dataset | src/usgsm2m_dataset.cpp:7-24 | an error iff both name and id are empty; otherwise an object holding each key iff its argument is non-empty |
| DatasetApi.DatasetBrowse | src/usgsm2m_dataset.cpp:26-42 | rejects an empty `datasetId`; otherwise sends exactly `{datasetId}` |
| DatasetApi.DatasetBulkProducts | src/usgsm2m_dataset.cpp:44-55 | no check; `datasetName` is present iff non-empty, and the payload is null exactly when it is empty |
| DatasetApi.DatasetCatalogs | src/usgsm2m_dataset.cpp:57-61 | calls `dataset-catalogs` without a body |
| DatasetApi.DatasetCategories | src/usgsm2m_dataset.cpp:63-84 | each of the six keys is present iff its optional is given, and then carries its value; with none given the payload is `null`, never `{}` |
| DatasetApi.DatasetClearCustomization | src/usgsm2m_dataset.cpp:86-102 | empty vectors are left out; the optional name is present iff given; with none given the payload is `null`, never `{}` |
| DatasetApi.DatasetCoverage | src/usgsm2m_dataset.cpp:104-120 | rejects an empty `datasetName`; otherwise sends exactly `{datasetName}` |
| DatasetApi.DatasetDownloadOptions | src/usgsm2m_dataset.cpp:122-141 | rejects an empty `datasetName`; `sceneFilter` is present iff given |
| DatasetApi.DatasetFileGroups | src/usgsm2m_dataset.cpp:143-158 | rejects an empty `datasetName`; otherwise sends exactly `{datasetName}` |
| DatasetApi.DatasetFilters | src/usgsm2m_dataset.cpp:160-175 | rejects an empty `datasetName`; otherwise sends exactly `{datasetName}` |
| DatasetApi.DatasetGetCustomization | src/usgsm2m_dataset.cpp:177-193 | rejects an empty `datasetName`; otherwise sends exactly `{datasetName}` |
| DatasetApi.DatasetGetCustomizations | src/usgsm2m_dataset.cpp:195-209 | empty vectors are left out; the payload is null exactly when both are empty |
| DatasetApi.DatasetMessages | src/usgsm2m_dataset.cpp:211-227 | optionals present iff given; `datasetNames` present iff non-empty; with none given the payload is `null`, never `{}` |
| DatasetApi.DatasetMetadata | src/usgsm2m_dataset.cpp:229-245 | rejects an empty `datasetName`; otherwise sends exactly `{datasetName}` |
| DatasetApi.DatasetOrderProducts | src/usgsm2m_dataset.cpp:247-263 | rejects an empty `datasetName`; otherwise sends exactly `{datasetName}` |
| DatasetApi.DatasetSearch | src/usgsm2m_dataset.cpp:265-296 | each of the eleven keys is present iff its optional is given, and then carries its value; with none given the payload is `null`, never `{}` |
| DatasetApi.DatasetSetCustomization | src/usgsm2m_dataset.cpp:298-324 | rejects an empty `datasetName`; the other keys (including `searchSort`) are present iff given |
| DatasetCustomization.MetadataItemShape | src/usgsm2m_dataset.cpp:361-370 | a metadata item is dropped iff it has neither an id nor a sort order >= 0; otherwise it holds `id` iff non-empty and `sortOrder` iff >= 0, and nothing else |
| DatasetCustomization.SortItemShape | src/usgsm2m_dataset.cpp:386-395 | a search-sort item is dropped iff both id and direction are empty; otherwise it holds each iff non-empty |
| DatasetCustomization.MetadataItemsEmpty | src/usgsm2m_dataset.cpp:358-372 | a metadata array comes out empty iff every item in the list is dropped |
| DatasetCustomization.MetadataItemsPruned | src/usgsm2m_dataset.cpp:358-372 | a metadata array never grows beyond the list and holds no empty container |
| DatasetCustomization.SortItemsEmpty | src/usgsm2m_dataset.cpp:383-397 | the search-sort array comes out empty iff every entry is dropped |
| DatasetCustomization.SortItemsPruned | src/usgsm2m_dataset.cpp:383-397 | the search-sort array never grows beyond the list and holds no empty container |
| DatasetCustomization.EntryMember | src/usgsm2m_dataset.cpp:346-416 | each key of an entry is the one the entry's guards let through |
| DatasetCustomization.MetadataJsonPruned | src/usgsm2m_dataset.cpp:355-380 | an emitted `metadata` object contains no empty container |
| DatasetCustomization.FileGroupsJsonPruned | src/usgsm2m_dataset.cpp:403-413 | an emitted `fileGroups` object contains no empty container |
| DatasetCustomization.SortArrayPruned | src/usgsm2m_dataset.cpp:383-400 | an emitted `search_sort` array contains no empty container |
| DatasetCustomization.EntryPruned | src/usgsm2m_dataset.cpp:346-416 | an entry never contains an empty array or object at any depth |
| DatasetCustomization.EntryExcluded | src/usgsm2m_dataset.cpp:350-352 | `excluded` is present iff set, and an entry has no keys besides the four sections |
| DatasetCustomization.EntryMetadata | src/usgsm2m_dataset.cpp:355-380 | `metadata` is present iff some list holds an item with an id or a sort order >= 0 |
| DatasetCustomization.EntrySearchSort | src/usgsm2m_dataset.cpp:383-400 | `search_sort` is present iff some entry has an id or a direction |
| DatasetCustomization.EntryFileGroups | src/usgsm2m_dataset.cpp:403-413 | `fileGroups` is present iff some group has a non-empty product list |
| DatasetCustomization.MetadataEntry | src/usgsm2m_dataset.cpp:361-367 | the item object the loop builds is the specified metadata item |
| DatasetCustomization.MetadataArray | src/usgsm2m_dataset.cpp:359-371 | the loop over a metadata list yields the specified array |
| DatasetCustomization.MetadataKey | src/usgsm2m_dataset.cpp:358-374 | a metadata key's array is written iff it comes out non-empty |
| DatasetCustomization.MetadataToJson | src/usgsm2m_dataset.cpp:356-376 | the loop over the metadata map keeps exactly the keys whose arrays are non-empty |
| DatasetCustomization.MetadataJsonFrom | src/usgsm2m_dataset.cpp:356-376 | a map with exactly the keys whose arrays are non-empty, each holding its array, is the `metadata` object |
| DatasetCustomization.SortEntry | src/usgsm2m_dataset.cpp:386-392 | the object the loop builds for one sort field is the specified item |
| DatasetCustomization.SortArray | src/usgsm2m_dataset.cpp:384-396 | the loop over the search-sort list yields the specified array |
| DatasetCustomization.FileGroupsToJson | src/usgsm2m_dataset.cpp:404-409 | the loop over file groups keeps exactly the groups with products, as string arrays |
| DatasetCustomization.MetadataMember | src/usgsm2m_dataset.cpp:355-380 | the `metadata` member is written iff its object is non-empty |
| DatasetCustomization.SortMember | src/usgsm2m_dataset.cpp:383-400 | the `search_sort` member is written iff its array is non-empty |
| DatasetCustomization.FileGroupsMember | src/usgsm2m_dataset.cpp:403-413 | the `fileGroups` member is written iff its object is non-empty |
| DatasetCustomization.CustomizationToJson | src/usgsm2m_dataset.cpp:346-416 | the serialiser returns the specified entry (its properties are the Entry* lemmas) |
| DatasetCustomization.Named | src/usgsm2m_dataset.cpp:332-333 | one (dataset name, entry) pair per customization |
| DatasetCustomization.NamedIndex | src/usgsm2m_dataset.cpp:332-333 | the i-th pair is the i-th customization's name and entry |
| DatasetCustomization.EntriesForSnoc | src/usgsm2m_dataset.cpp:334-336 | one more pair appends its entry to its own name's list only, and only when the entry is not null |
| DatasetCustomization.GroupsAreEntries | src/usgsm2m_dataset.cpp:332-337 | the grouping holds a name iff some non-empty entry carries it, mapped to those entries in input order |
| DatasetCustomization.GroupsEmpty | src/usgsm2m_dataset.cpp:332-341 | the grouping is empty iff every entry is null |
| DatasetCustomization.EntriesForPruned | src/usgsm2m_dataset.cpp:332-337 | every grouped entry is free of empty containers |
| DatasetCustomization.EntriesForFrom | src/usgsm2m_dataset.cpp:332-337 | every grouped entry comes from a customization with that dataset name |
| DatasetCustomization.PayloadMember | src/usgsm2m_dataset.cpp:339-341 | the request holds only `datasetCustomization`, and holds it iff the grouping is non-empty |
| DatasetCustomization.SetCustomizationsNull | src/usgsm2m_dataset.cpp:339-343 | the request is null (the key omitted) iff no customization produced an entry |
| DatasetCustomization.SetCustomizationsGrouped | src/usgsm2m_dataset.cpp:332-341 | `datasetCustomization` maps each name to the array of its non-empty entries, in input order, and holds no other name |
| DatasetCustomization.SetCustomizationsPruned | src/usgsm2m_dataset.cpp:326-344 | the whole request contains no empty array or object |
| DatasetCustomization.GroupStep | src/usgsm2m_dataset.cpp:333-336 | one more customization appends its entry to its name's list unless the entry is null |
| DatasetCustomization.EntryEmpty | src/usgsm2m_dataset.cpp:334 | `entry.empty()` holds of an entry iff it is null |
| DatasetCustomization.GroupEntries | src/usgsm2m_dataset.cpp:329-337 | the grouping loop yields the specified grouping |
| DatasetCustomization.RequestObject | src/usgsm2m_dataset.cpp:339-341 | the request object is built around the grouping as specified |
| DatasetCustomization.SetCustomizations | src/usgsm2m_dataset.cpp:326-344 | posts the specified grouped payload to `dataset-set-customizations` |
| SceneApi.SceneListAdd | src/usgsm2m_scene.cpp:7-44 | `listId` is checked before `datasetName`; `entityIds` is present only if given and non-empty; the other optionals are present iff given |
| SceneApi.SceneListGet | src/usgsm2m_scene.cpp:52-76 | rejects an empty `listId`; otherwise `listId` is always sent and the three optionals are present iff given |
| SceneApi.SceneListRemove | src/usgsm2m_scene.cpp:78-102 | rejects an empty `listId`; `entityIds` is sent whenever given, even when empty |
| SceneApi.SceneListSummary | src/usgsm2m_scene.cpp:104-124 | rejects an empty `listId`; `datasetName` is present iff given |
| SceneApi.SceneListTypes | src/usgsm2m_scene.cpp:126-135 | `listFilter` is present iff given; the payload is null otherwise |
| SceneApi.SceneMetadata | src/usgsm2m_scene.cpp:137-173 | `datasetName` is checked before `entityId`; the optionals are present iff given |
| SceneApi.SceneMetadataList | src/usgsm2m_scene.cpp:175-202 | rejects an empty `listId`; the optionals are present iff given |
| SceneApi.SceneMetadataXml | src/usgsm2m_scene.cpp:204-234 | `datasetName` is checked before `entityId`; `metadataType` is present iff given |
| SceneApi.SortCustomizationJson | src/usgsm2m_scene.cpp:276-281 | `sortCustomization` has exactly the keys `field_name` and `direction` |
| SceneApi.SceneSearch | src/usgsm2m_scene.cpp:236-290 | rejects an empty `datasetName`; the thirteen optional keys are present iff given |
| SceneApi.TemporalFilterJson | src/usgsm2m_scene.cpp:317-322 | `temporalFilter` has exactly the keys `start` and `end`, each the formatted time point |
| SceneApi.SceneSearchDelete | src/usgsm2m_scene.cpp:292-327 | rejects an empty `datasetName`; the optionals (including the temporal filter) are present iff given |
| SceneApi.SceneSearchSecondary | src/usgsm2m_scene.cpp:330-369 | one combined message if either `entityId` or `datasetName` is empty; the optionals are present iff given |
| DownloadApi.ProxiedEntry | src/usgsm2m_download.cpp:21-23 | each proxied entry has exactly `downloadId` and `downloadedSize` |
| DownloadApi.DownloadCompleteProxied | src/usgsm2m_download.cpp:7-30 | rejects an empty list; otherwise `proxiedDownloads` has the input's length and order, one exact entry per download |
| DownloadApi.DownloadEula | src/usgsm2m_download.cpp:32-51 | `eulaCode` is present iff given; `eulaCodes` is present iff non-empty; with none given the payload is `null`, never `{}` |
| DownloadApi.DownloadLabels | src/usgsm2m_download.cpp:53-64 | `downloadApplication` is present iff given; the payload is null otherwise |
| DownloadApi.DownloadOptions | src/usgsm2m_download.cpp:66-91 | rejects an empty `datasetName`; the optionals are present iff given |
| DownloadApi.DownloadOrderLoad | src/usgsm2m_download.cpp:93-114 | an error only when both optionals are absent (present-but-empty strings pass); the payload is then a non-empty object |
| DownloadApi.DownloadOrderRemove | src/usgsm2m_download.cpp:116-136 | rejects an empty `label`; `downloadApplication` is present iff given |
| DownloadApi.DownloadRemove | src/usgsm2m_download.cpp:138-154 | rejects every `downloadId <= 0`; otherwise sends exactly `{downloadId}` |
| DownloadApi.DownloadsArray | src/usgsm2m_download.cpp:173-190 | the loop succeeds iff every download has an `entityId`, and then yields one item per download in order |
| DownloadApi.FilepathsArray | src/usgsm2m_download.cpp:192-210 | the loop succeeds iff every data path has a `datasetName`, and then yields one item per element in order |
| DownloadApi.FilegroupsArray | src/usgsm2m_download.cpp:212-230 | the loop succeeds iff every data group has a `datasetName`, and then yields one item per element in order |
| DownloadApi.DownloadRequest | src/usgsm2m_download.cpp:156-235 | the lists are checked in the order downloads, data paths, data groups, and any invalid element abandons the call; otherwise each given list is sent (even empty) with its items in order, and the scalar optionals are present iff given; with nothing given the payload is `null`, never `{}` |
| DownloadApi.DownloadItemShape | src/usgsm2m_download.cpp:183-187 | a download item always has `entityId` and holds each optional key iff set |
| DownloadApi.DownloadRetrieve | src/usgsm2m_download.cpp:237-255 | `label` and `downloadApplication` are present iff given; with none given the payload is `null`, never `{}` |
| DownloadApi.DownloadSearch | src/usgsm2m_download.cpp:257-274 | the four optionals are present iff given; with none given the payload is `null`, never `{}` |
| DownloadApi.DownloadSummary | src/usgsm2m_download.cpp:276-307 | `downloadApplication` is checked before `label`; `sendEmail` is present iff given |
| MiscApi.Grid2ll | src/usgsm2m_misc.cpp:7-31 | rejects an empty `gridType`; the optional keys are present iff given |
| MiscApi.Notifications | src/usgsm2m_misc.cpp:33-49 | rejects an empty `systemId`; otherwise sends exactly `{systemId}` |
| MiscApi.OrderProducts | src/usgsm2m_misc.cpp:51-74 | rejects an empty `datasetName`; the optionals are present iff given |
| MiscApi.ProductItemShape | src/usgsm2m_misc.cpp:105-109 | a product item carries the three required strings, and `productCode` iff set |
| MiscApi.ProductsArray | src/usgsm2m_misc.cpp:96-112 | the loop succeeds iff every product is complete, and then yields one item per product in order |
| MiscApi.OrderSubmit | src/usgsm2m_misc.cpp:76-123 | rejects an empty list, then any incomplete product; otherwise `products` keeps order and length, and the trailing optionals are present iff given |
| MiscApi.Permissions | src/usgsm2m_misc.cpp:125-128 | calls `permissions` without a body |
| MiscApi.Placename | src/usgsm2m_misc.cpp:130-143 | both optionals are present iff given; with none given the payload is `null`, never `{}` |
| MiscApi.RateLimitSummary | src/usgsm2m_misc.cpp:145-156 | `ipAddress` is sent whenever given, even when empty |
| MiscApi.UserPreferenceGet | src/usgsm2m_misc.cpp:158-171 | `systemId` is present iff given; `setting` is sent whenever given, even when empty; with none given the payload is `null`, never `{}` |
| MiscApi.UserPreferenceSet | src/usgsm2m_misc.cpp:173-200 | `systemId` is checked before `userPreferences`, and preferences nlohmann deems empty are refused; otherwise exactly both keys are sent |
| TramApi.TramOrderDetailUpdate | src/usgsm2m_tram.cpp:7-43 | checks `orderNumber`, `detailKey`, `detailValue` in that order and names the first empty one; otherwise sends exactly those three keys |
| TramApi.TramOrderDetails | src/usgsm2m_tram.cpp:45-63 | rejects an empty `orderNumber`; otherwise sends exactly `{orderNumber}` |
| TramApi.TramOrderDetailsClear | src/usgsm2m_tram.cpp:65-83 | rejects an empty `orderNumber`; otherwise sends exactly `{orderNumber}` |
| TramApi.TramOrderDetailsRemove | src/usgsm2m_tram.cpp:85-112 | `orderNumber` is checked before `detailKey`; otherwise exactly both keys are sent |
| TramApi.TramOrderSearch | src/usgsm2m_tram.cpp:114-136 | `statusFilter` is sent only if given and non-empty; the other optionals are present iff given; with none given the payload is `null`, never `{}` |
| TramApi.TramOrderStatus | src/usgsm2m_tram.cpp:138-154 | rejects an empty `orderNumber`; otherwise sends exactly `{orderNumber}` |
| TramApi.TramOrderUnits | src/usgsm2m_tram.cpp:156-172 | rejects an empty `orderNumber`; otherwise sends exactly `{orderNumber}` |
| LoginApi.UserContextJson | src/usgsm2m_login.cpp:29-32 | the `userContext` object has exactly `contactId` and `ipAddress` |
| LoginApi.LoginAppGuest | src/usgsm2m_login.cpp:7-17 | always sends exactly the two tokens, with no validation |
| LoginApi.LoginToken | src/usgsm2m_login.cpp:19-38 | always sends `username` and `token`; `userContext` is sent iff the context is given |
| LoginApi.LoginTokenContext | src/usgsm2m_login.cpp:27-33 | `userContext` is present iff `contactId` or `ipAddress` is non-empty, and then carries both fields |
| LoginApi.LoginSSO | src/usgsm2m_login.cpp:40-57 | the same context rule; the payload is otherwise empty, and null when no context is given |
| LoginApi.Logout | src/usgsm2m_login.cpp:59-70 | calls `logout` without a body |
| ClientCore.AuthToken | src/usgsm2m.cpp:188-189 | a token read back from a header list comes from one of its `X-Auth-Token` headers |
| ClientCore.AuthHeadersToken | src/usgsm2m.cpp:181-190 | the rebuilt header list reads back the token just set, and has the content type exactly once, first |
| ClientCore.Client.constructor | src/usgsm2m.cpp:118-131 | a new client has no cURL handle and an empty header list |
| ClientCore.Client.SetupCurl | src/usgsm2m.cpp:118-131 | nothing changes on a failed init; otherwise the content-type header is added only when the list is empty |
| ClientCore.Client.SetAuthToken | src/usgsm2m.cpp:181-190 | the header list becomes exactly content type and `X-Auth-Token: <token>`, whatever it held, so repeated calls keep two headers and the last token wins |
| ClientCore.ResponseBuffer.constructor | src/usgsm2m.cpp:19 | a response buffer starts empty |
| ClientCore.ResponseBuffer.WriteCallback | src/usgsm2m.cpp:174-179 | appends exactly `size*nmemb` bytes (modulo 2^64) to the buffer and returns that count |
| ClientCore.Int32 | src/usgsm2m.cpp:40 | `get<int>` narrowing: a 32-bit value congruent to the input, equal to it when in range |
| ClientCore.DigitChar | src/usgsm2m.cpp:30 | a digit's character has that digit's value |
| ClientCore.Digits | src/usgsm2m.cpp:30 | the digits of a number are decimal, non-empty and without a leading zero |
| ClientCore.DecimalString | src/usgsm2m.cpp:30 | `std::to_string` starts with '-' exactly for negative numbers |
| ClientCore.DigitsRoundTrip | src/usgsm2m.cpp:30 | the digit string reads back as the number |
| ClientCore.DecimalRoundTrip | src/usgsm2m.cpp:30 | the status code in "HTTP error code: <code>" reads back as the code |
| ClientCore.GetInt | src/usgsm2m.cpp:40-43 | `get<int>` succeeds exactly on numbers and booleans, and preserves in-range integers |
| ClientCore.Classified | src/usgsm2m.cpp:23-56 | transport failure first, then status != 200, each with its message and no code; `success` iff the body is an object without an error code, with a string `data` and numeric ids, which are then copied; a complete API error copies code, message and ids; every other outcome is "JSON parse error: ..." |
| ClientCore.ExtractIds | src/usgsm2m.cpp:42-43 | `requestId` and then `sessionId` are extracted; the first that fails ends the block and keeps what was assigned before, and `thrown` reports exactly whether one failed |
| ClientCore.ParseResponse | src/usgsm2m.cpp:36-56 | the `try` block on a parsed body yields the classified result, field by field; success is set only when no extraction threw |
| ClientCore.ClassifyLogin | src/usgsm2m.cpp:23-56 | the early-return sequence computes the classified result |
| ClientCore.LoginAppGuest | src/usgsm2m.cpp:9-59 | posts the same payload as the decoder-based version to `API_URL` followed by the path, and classifies the answer |
| ClientCore.LoginToken | src/usgsm2m.cpp:60-116 | posts to `API_URL` followed by `login-token`; `userContext` is sent iff nlohmann deems it non-empty (a scalar is sent); the answer is classified |

## Left out

- The libcurl plumbing is not modelled: `curl_global_init`, `curl_easy_*`, `cleanup_curl`, `performJsonPostRequest` and its 10-second timeout. This is foreign I/O. The transport reaches the classifier only as its outcome `(ok, status, body)`.
- `defaultJsonResponseParsing`, `performJsonGetRequest` and `httpRequestSuccessful` are not part of this model. Every façade is therefore modelled only up to the `Request` it hands to them. `Logout` and the body-less calls are `SendWithoutBody`.
- SetupCurl: the "Failed to initialize cURL." line written to standard error on a failed `curl_easy_init` is not modelled, because it is console output that no caller observes; the model keeps only `curlReady == false`.
- `timeToISO8601UTC` is not part of this model. It is the parameter `toIso` of `SceneApi.SceneSearchDelete`.
- The text of the base URL for the second-version files is not modelled. It comes from a header that is not part of this model, so requests carry only their path. `ClientCore.ApiUrl` is the constant of `usgsm2m.cpp`; the two login calls of that file return the URL they post to.
- nlohmann's text parsing and `dump()` formatting are not modelled; the model uses the `JSON` datatype. Floating-point numbers, and integers beyond 64 bits (which nlohmann parses as floats), are left out too.
- The text of library exceptions is not modelled. It is the parameter `what: Fault -> string` of the classifier.
- Inside the classifier, nlohmann's non-const subscript inserts null members into the parsed document. That mutation is not modelled, because no later read in the block observes it.
- `SpatialBounds` and the other `double` fields are not modelled: floating point, and no shown code reads them.
- The struct types that are not shown (`Download`, `FilepathDownload`, `FilegroupDownload`, `Product`, `ProxiedDownload`, `DatasetCustomization`, `SortCustomization`, `TemporalFilter`) have fields inferred from their use.
- `std::optional<int>` arguments are modelled as unbounded integers, because the client copies them into the JSON unchanged. Only `get<int>` on the response is narrowed (`ClientCore.Int32`).
- Iteration order over `std::map` is not modelled. Maps are Dafny maps, and the loops pick keys in any order, which cannot change the result.
- Exceptions other than those raised inside the login classifier's `try` block are not modelled: allocation failures and nlohmann type errors while building payloads.
- The two `USGS_M2M_API` class declarations and the duplicate response types in the headers are used only to name fields. The header defaults are `requestId = sessionId = -1` and `success = false`.
- The customization key `search_sort` (in `datasetCustomizationToJson`) and `searchSort` (in `datasetSetCustomization`) are each kept as written. The source is inconsistent here, and no API reference is at hand to say which is intended.
