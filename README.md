# Cloudflare bulk tools: a Dafny model

cloudflare-tools is a small web panel for running bulk operations on the zones of several Cloudflare accounts. It has two halves:

- A Go server (`Server/handler/*.go`). It stores the accounts, guards the panel with a login and a bearer token, and turns one request into one Cloudflare call chain per domain.
- A single-page JavaScript frontend (`Frontend/src/main.js` and `Frontend/src/modules/*.js`). It holds the session and the routing. Its forms read a textarea of domains or records, check their inputs, and post a request body.

This project models both halves.

**Server handlers.** Each handler becomes a function from its request and the answers Cloudflare gave to its HTTP answer. Cloudflare answers are oracle parameters, one per call or one per batch index. The per-domain loops become methods proved against those functions. The login lockout is a class, `Auth.LoginGuard`, proved against a step function. The account list is a class, `AccountHandler.AccountStore`, proved against `Upsert` and `Remove`.

**Frontend forms.** Each form becomes a function that returns one of three things: the alert a click stops at, the user declining the confirmation, or the request body it posts. The request body is the server's own request datatype, so the form and its handler are connected by construction.

**Frontend state.** The account list view (`accounts.js`), the page shell (`main.js`) and the zone-export panel keep state, so each is a class. Their methods are proved against specification functions.

Modules by file:

- Shared helpers: `text.dfy` (strings), `seqs.dfy` (filter and de-duplication), `domain_list.dfy` (the textarea parse), `handler_common.dfy` (account lookup, zone lookup, batch fan-out), `zone_settings.dfy` (the settings handlers' count aggregation).
- One module per core handler: `ssl.dfy`, `cache.dfy`, `optimization.dfy`, `bulk_settings.dfy`, `dns.dfy`, `rules.dfy`, `zone.dfy`, `cert.dfy`, `email.dfy`, `auth.dfy`, `account_store.dfy`.
- One module per core frontend file:
  - Shell and views: `app.dfy`, `accounts.dfy`.
  - Form modules: `forms.dfy`, `dns_records_form.dfy`, `add_zone_form.dfy`, `email_routing_form.dfy`, `apply_cert_form.dfy`, `del_rules_form.dfy`, `copy_rules_form.dfy`, `proxy_toggle_form.dfy`, `del_zone_form.dfy`, `ssl_settings_form.dfy`, `optimization_form.dfy`, `bulk_settings_form.dfy`, `cache_settings_form.dfy`, `export_zones_form.dfy`.

## Model

| member | source | states |
|---|---|---|
| DomainList.ParseLines | Frontend/src/modules/add_zone.js:61 | every entry of the split-trim-filter parse is non-empty, trimmed and free of newlines |
| DomainList.ParseUnique | Frontend/src/modules/add_zone.js:61-62 | the `[...new Set(...)]` parse has no duplicates and holds exactly the entries of the plain parse |
| DomainList.NonBlankGivesEntries | Frontend/src/modules/add_zone.js:60-65 | text whose trim is non-empty always parses to at least one entry, with or without de-duplication |
| DomainList.ParseJoin | Frontend/src/modules/export_zones.js:139-142 | parsing a newline-joined list of entries gives that list back |
| DomainList.ParseLinesIdempotent | Frontend/src/modules/add_zone.js:61 | re-parsing the joined parse changes nothing |
| DomainList.ParseUniqueIdempotent | Frontend/src/modules/add_zone.js:61-62 | re-parsing the joined de-duplicated parse changes nothing |
| DomainList.TrimAll | Frontend/src/modules/add_zone.js:61 | the map keeps the length and trims each line in place |
| Text.Trim | Server/handler/dns.go:128-131 | the result has no whitespace at either end, is empty exactly for blank input, and takes its characters from the input |
| Text.TrimIsSlice | Server/handler/dns.go:128-131 | the result is the input with exactly its leading and trailing whitespace removed |
| Text.TrimUnique | Server/handler/dns.go:128-131 | any non-empty slice of the input with only whitespace around it and none at its own ends is the trimmed input |
| Text.TrimIdempotent | Server/handler/dns.go:128-131 | trimming twice is trimming once |
| Text.Split | Server/handler/dns.go:123 | a split has at least one part, and no part contains the separator |
| Text.SplitLength | Server/handler/dns.go:123-124 | a split has one part more than the string has separators |
| Text.JoinSplit | Frontend/src/modules/export_zones.js:139-142 | joining a split gives the string back |
| Text.SplitJoin | Frontend/src/modules/export_zones.js:139-142 | splitting a join of separator-free parts gives the parts back |
| Text.Lower | Frontend/src/modules/accounts.js:26-27 | ASCII lower-casing keeps the length and maps each character on its own |
| Text.NatToStringValue | Server/handler/ssl.go:136 | the `%d` rendering of a count reads back as that count |
| Text.NatToStringInjective | Server/handler/ssl.go:136-138 | different counts print differently |
| Seqs.Filter | Frontend/src/modules/add_zone.js:61 | `filter` keeps only passing elements and never lengthens |
| Seqs.FilterMembership | Frontend/src/modules/add_zone.js:61 | an element is kept exactly when it was present and passes |
| Seqs.FilterAppend | Frontend/src/modules/accounts.js:24-36 | filtering distributes over concatenation, so order is kept |
| Seqs.Dedupe | Frontend/src/modules/add_zone.js:62 | the result has no duplicates and holds exactly the input's elements |
| Seqs.DedupeOfDistinct | Frontend/src/modules/add_zone.js:62 | a duplicate-free list is left unchanged |
| Seqs.DedupeIdempotent | Frontend/src/modules/add_zone.js:62 | de-duplicating twice is de-duplicating once |
| Seqs.DedupeKeepsPrefix | Frontend/src/modules/add_zone.js:62 | first occurrences win: the de-duplicated prefix stays at the front |
| HandlerCommon.FindAccount | Server/handler/ssl.go:38-49 | none exactly when no stored account has the id; otherwise the first account with it |
| HandlerCommon.ZoneIdOf | Server/handler/ssl.go:72-96 | a zone id exactly when the lookup was answered with at least one zone, and then the first zone's id; "Request failed" when the request failed; "Zone not found" when the answer held no zone |
| HandlerCommon.RunBatch | Server/handler/ssl.go:51-67 | one result per domain, written at that domain's index |
| HandlerCommon.DomainBatch | Server/handler/zone.go:27-65 | 404 exactly for an unknown account, never 400 for a decoded body, otherwise one result per domain at its index from that domain's work |
| HandlerCommon.OkCount | Server/handler/dns.go:347-356 | the count of 200 answers is at most the number of calls, and is positive exactly when one call got 200 |
| ZoneSettings.Aggregate | Server/handler/ssl.go:135-141 | success exactly when some call succeeded; "Success (s/t)" when all did, "Partial success (s/t)" otherwise, the fail message when none did |
| ZoneSettings.Tally | Server/handler/ssl.go:97-133 | the chain counts every requested operation and, among them, those whose call succeeded |
| ZoneSettings.Outcome | Server/handler/ssl.go:71-142 | a failed zone lookup answers its own message; otherwise the aggregation of the tally |
| ZoneSettings.ApplySettings | Server/handler/ssl.go:71-142 | the per-domain body computes exactly `Outcome` |
| ZoneSettings.SomeSucceeded | Server/handler/ssl.go:135-139 | at least one success is counted exactly when some requested operation's call succeeded |
| ZoneSettings.NothingRequested | Server/handler/ssl.go:100-133 | nothing is attempted exactly when no field is set |
| ZoneSettings.NothingRequestedFails | Server/handler/ssl.go:135-141 | with nothing requested, a found zone still answers the failure message |
| ZoneSettings.AllSucceeded | Server/handler/ssl.go:135-136 | when every requested call succeeds the answer is "Success (t/t)" |
| ZoneSettings.SettingNames | Server/handler/ssl.go:100-133 | one setting name per operation, in order |
| SslHandler.BatchSslSettings | Server/handler/ssl.go:31-69 | 404 exactly for an unknown account; otherwise one result per domain, at its index, with that domain's outcome |
| SslHandler.NothingRequestedIff | Server/handler/ssl.go:100-133 | nothing is attempted exactly when all five fields are empty |
| SslHandler.SettingsDistinct | Server/handler/ssl.go:100-133 | each setting is PATCHed at most once per domain |
| CacheHandler.BatchCacheSettings | Server/handler/cache.go:31-69 | 404 exactly for an unknown account; otherwise one result per domain, at its index |
| CacheHandler.PurgeCounts | Server/handler/cache.go:71-136 | the purge flag counts as one operation on top of the non-empty setting fields |
| CacheHandler.NothingRequestedIff | Server/handler/cache.go:71-142 | nothing is attempted exactly when purge is off and the four settings are empty |
| CacheHandler.CallsDistinct | Server/handler/cache.go:71-136 | the purge and each setting are sent at most once per domain |
| OptimizationHandler.MinifyConfig | Server/handler/optimization.go:200-235 | a payload exactly for the five keywords; css, html and js are on exactly for "all" or their own keyword |
| OptimizationHandler.MinifyOnCount | Server/handler/optimization.go:203-234 | a single keyword turns on one part, "all" three, "off" none |
| OptimizationHandler.BatchOptimization | Server/handler/optimization.go:38-76 | 404 exactly for an unknown account; otherwise one result per domain, at its index |
| OptimizationHandler.UnknownMinifyFails | Server/handler/optimization.go:200-235 | an unknown minify keyword is counted as attempted and can never succeed |
| OptimizationHandler.NothingRequestedIff | Server/handler/optimization.go:78-197 | nothing is attempted exactly when all twelve fields are empty |
| OptimizationHandler.SettingsDistinct | Server/handler/optimization.go:78-190 | each setting is PATCHed at most once per domain |
| BulkSettingsHandler.BatchBulkSettings | Server/handler/bulk_settings.go:41-79 | 404 exactly for an unknown account; otherwise one result per domain, at its index |
| BulkSettingsHandler.NothingRequestedIff | Server/handler/bulk_settings.go:81-228 | nothing is attempted exactly when all sixteen fields are empty |
| BulkSettingsHandler.SettingsDistinct | Server/handler/bulk_settings.go:81-221 | each setting is PATCHed at most once per domain |
| DnsHandler.LineRecord | Server/handler/dns.go:122-132 | a record exactly for lines with at least three '\|'; its four fields are trimmed and free of '\|' |
| DnsHandler.ParsedRecords | Server/handler/dns.go:120-135 | never more records than lines |
| DnsHandler.ParsedRecordsAppend | Server/handler/dns.go:120-135 | parsing distributes over concatenation of lines, so line order is kept |
| DnsHandler.ParsedRecordsMembership | Server/handler/dns.go:120-135 | a record is produced exactly when some line yields it |
| DnsHandler.ParseRecords | Server/handler/dns.go:120-135 | the append loop computes exactly `ParsedRecords` |
| DnsHandler.EffectiveTtl | Server/handler/dns.go:147-149 | the TTL sent is never 0, and a non-zero TTL is kept |
| DnsHandler.Payload | Server/handler/dns.go:151-157 | the record body never carries TTL 0 |
| DnsHandler.AddRecordOutcome | Server/handler/dns.go:137-192 | success exactly when the zone is found and the POST got 200; otherwise the lookup error, "Request failed", or the API's first error or `HTTP <status>` |
| DnsHandler.BatchParseDns | Server/handler/dns.go:71-118 | 404 for an unknown account; 400 "No valid records" exactly when no line parses; otherwise one result per parsed record, at its index |
| DnsHandler.DeleteQuery | Server/handler/dns.go:303-318 | the filter is empty exactly for delete-all or when neither type nor name is given |
| DnsHandler.QueriesAgree | Server/handler/dns.go:303-318 | the delete filter and the proxy filter, written separately, agree whenever not everything is deleted |
| DnsHandler.CountDeleted | Server/handler/dns.go:344-356 | the loop counts exactly the DELETEs answered 200 |
| DnsHandler.DeleteOutcome | Server/handler/dns.go:297-362 | success exactly when something was deleted; the count is at most the listed records; "No records found" for an empty listing; "Deleted n records" on success |
| DnsHandler.DeleteDnsRecords | Server/handler/dns.go:297-362 | the per-domain body computes exactly `DeleteOutcome` |
| DnsHandler.PatchedCount | Server/handler/dns.go:455-471 | the count is positive exactly when some A/AAAA/CNAME record's PATCH got 200 |
| DnsHandler.CountPatched | Server/handler/dns.go:454-472 | the loop counts exactly the proxiable records answered 200 |
| DnsHandler.ProxyOutcome | Server/handler/dns.go:410-485 | success exactly when some proxiable record was switched; the message names the direction and count; a non-empty listing with none switched says "No proxiable records found" |
| DnsHandler.ToggleProxyStatus | Server/handler/dns.go:410-485 | the per-domain body computes exactly `ProxyOutcome` |
| DnsHandler.CountBatch | Server/handler/dns.go:251-295 | 404 for an unknown account; 400 "No domains provided" exactly for an empty list; otherwise one result per domain at its index |
| DnsHandler.BatchDeleteDns | Server/handler/dns.go:251-295 | 404 for an unknown account; 400 exactly for an empty list; result i is for domain i and is exactly the `DeleteOutcome` of that domain's zone lookup, listing and delete answers |
| DnsHandler.BatchProxyToggle | Server/handler/dns.go:364-408 | 404 for an unknown account; 400 exactly for an empty list; result i is for domain i and is exactly the `ProxyOutcome` of that domain's zone lookup, listing, requested status and patch answers |
| DnsHandler.NothingProxiableFails | Server/handler/dns.go:455-484 | a listing without A, AAAA or CNAME records never succeeds |
| RulesHandler.StripServerKeys | Server/handler/rules.go:154-156 | the rule loses exactly `id`, `created_on` and `modified_on`, and every other key keeps its value |
| RulesHandler.TypeCount | Server/handler/rules.go:345-382 | a failed listing counts nothing; otherwise at most the listed rules |
| RulesHandler.CountRuleCalls | Server/handler/rules.go:345-382 | the per-type loop counts exactly the calls answered 200 |
| RulesHandler.CopyListedRules | Server/handler/rules.go:133-174 | one POST body per listed rule, in order, each being that rule stripped of its server keys; the count is `TypeCount` |
| RulesHandler.RuleTypesTotal | Server/handler/rules.go:82-96 | the total is positive exactly when some known rule-type entry had a call answered 200 |
| RulesHandler.SumRuleTypes | Server/handler/rules.go:82-96 | the switch loop over the rule types computes exactly `RuleTypesTotal` |
| RulesHandler.TotalBound | Server/handler/rules.go:82-96 | the total is bounded by the number of entries times the largest listing |
| RulesHandler.CopyOutcome | Server/handler/rules.go:76-103 | "Target zone not found" on a failed lookup; success exactly when some rule was copied, with "Copied n rules", else "No rules copied" |
| RulesHandler.CopyRulesToDomain | Server/handler/rules.go:76-103 | the per-target body computes exactly `CopyOutcome` |
| RulesHandler.DeleteOutcome | Server/handler/rules.go:316-343 | "Zone not found" on a failed lookup; success exactly when some rule was deleted, with "Deleted n rules", else "No rules found" |
| RulesHandler.DeleteRulesFromDomain | Server/handler/rules.go:316-343 | the per-domain body computes exactly `DeleteOutcome` |
| RulesHandler.UnknownTypesCopyNothing | Server/handler/rules.go:84-96 | a rule-type list with no known entry never copies anything |
| RulesHandler.BatchCopyRules | Server/handler/rules.go:29-74 | 404 for an unknown account; 400 "Source domain not found" exactly when the source zone lookup fails; otherwise one result per target at its index |
| RulesHandler.BatchDeleteRules | Server/handler/rules.go:275-314 | 404 for an unknown account, never 400 for a decoded body, otherwise one result per domain at its index |
| ZoneHandler.AddZoneOutcome | Server/handler/zone.go:68-115 | success exactly on 200 or 201, with the name servers; otherwise "Request failed", the first API error, "Auth failed (403)" or `HTTP <status>`, with no name servers |
| ZoneHandler.BatchAddZones | Server/handler/zone.go:27-66 | 404 for an unknown account; otherwise one result per domain at its index |
| ZoneHandler.DeleteZoneOutcome | Server/handler/zone.go:168-226 | success exactly when the zone is found and the DELETE got 200; otherwise the lookup error, "Delete request failed", or the API's error |
| ZoneHandler.RejectionMessagesAgree | Server/handler/zone.go:104-112 | apart from a bare 403, adding and deleting report a rejection the same way |
| ZoneHandler.BatchDeleteZones | Server/handler/zone.go:128-166 | 404 for an unknown account; otherwise one result per domain at its index |
| ZoneHandler.Collected | Server/handler/zone.go:268-316 | the zones collected up to a page include that page's zones |
| ZoneHandler.LastPageUnique | Server/handler/zone.go:273-315 | at most one page ends the paging loop |
| ZoneHandler.FetchAllZones | Server/handler/zone.go:268-316 | fails with "Request failed" exactly when the last page fetched got no answer; otherwise every zone of pages 1 to that page, in page order |
| ZoneHandler.ErrorBodyExportsNothing | Server/handler/zone.go:290-314 | an error body on the first page ends the export at once with no zones |
| ZoneHandler.ExportZones | Server/handler/zone.go:239-266 | 404 exactly for an unknown account; 500 with the fetch error; otherwise the collected zones |
| CertHandler.Base | Server/handler/cert.go:64 | the base name has no '/' |
| CertHandler.ZipBase | Server/handler/cert.go:155 | the base name of a domain's zip is the domain followed by ".zip" |
| CertHandler.DomainArgs | Server/handler/cert.go:95-99 | `-d domain`, followed by `-d *.domain` exactly when the wildcard is asked for |
| CertHandler.IssueArgs | Server/handler/cert.go:100-104 | the issue command starts with `--issue` and names the domains exactly as `DomainArgs` does |
| CertHandler.InstallArgs | Server/handler/cert.go:131-140 | the install command names the domains as `DomainArgs` does, then pairs each certificate file option with that file's path in the domain's directory |
| CertHandler.InstallRepeatsIssuedDomains | Server/handler/cert.go:95-139 | the install names exactly the domains the issue named |
| CertHandler.InstalledFilesAreZipped | Server/handler/cert.go:131-144 | every file the install writes lies in the domain's directory under the name it gets inside the zip |
| CertHandler.OnlyIssueAndInstallRun | Server/handler/cert.go:103-146 | the outcome depends on acme.sh only through its answers to the issue and install commands |
| CertHandler.FailedIssueSkipsInstall | Server/handler/cert.go:113-123 | a failed issue never runs the install: its outcome ignores the install's answer |
| CertHandler.InstallExistingCert | Server/handler/cert.go:130-164 | keeps the earlier steps; succeeds exactly when acme.sh answered the install command without error and the zip was made, with "申请成功" and the zip path; "安装失败" with the error output, or "打包失败", otherwise |
| CertHandler.ApplyCertificate | Server/handler/cert.go:81-128 | "acme.sh not installed" without acme.sh; succeeds exactly when acme.sh's answer to the issue command is clean or reports "Domains not changed", its answer to the install command is clean and the zip was made; "申请失败" when issuing failed; the certificate path is the zip |
| CertHandler.DownloadUrl | Server/handler/cert.go:62-65 | a link exactly for a success with a certificate path |
| CertHandler.BatchApplyCert | Server/handler/cert.go:34-79 | 404 for an unknown account, never 400 for a decoded body; otherwise result i is domain i's `ApplyCertificate` outcome with its download link |
| CertHandler.DownloadCert | Server/handler/cert.go:202-220 | 400 exactly for an empty name or one containing ".."; 404 exactly for a missing file; otherwise the file under `certs/` with its name |
| CertHandler.EntryOf | Server/handler/cert.go:237-245 | the entry's domain plus ".zip" is the file name, and the link is the download prefix plus the name |
| CertHandler.CertEntries | Server/handler/cert.go:222-254 | at most one entry per file; each entry's domain, name and link agree |
| CertHandler.CertEntriesComplete | Server/handler/cert.go:236-246 | a name is listed exactly when it is a ".zip" file of the directory |
| CertHandler.ZipIsListed | Server/handler/cert.go:236-246 | every ".zip" file of the directory has an entry with its name |
| CertHandler.ListedIsZip | Server/handler/cert.go:236-246 | every entry names a ".zip" file of the directory |
| CertHandler.ListCerts | Server/handler/cert.go:222-254 | an empty array when the directory cannot be read; otherwise the entries of its ".zip" files |
| CertHandler.IssuedDownloadUrl | Server/handler/cert.go:62-65 | an issued certificate carries the download link of its zip's name |
| CertHandler.ZipIsServedAndListed | Server/handler/cert.go:202-246 | a zip that was written is served by the download and appears in the listing |
| EmailHandler.EnableResult | Server/handler/email.go:84-104 | success exactly on 200 or 201; otherwise "Request failed" or `HTTP <status>: <body>` |
| EmailHandler.CatchAllResult | Server/handler/email.go:106-140 | success exactly on 200; otherwise "Request failed" or `HTTP <status>: <body>` |
| EmailHandler.CreatedOnlyEnables | Server/handler/email.go:98-134 | a 201 answer enables routing but does not set the catch-all rule |
| EmailHandler.CatchAllPayload | Server/handler/email.go:107-118 | the rule is enabled, matches every address, and has one action: the worker, by name |
| EmailHandler.ProcessEmailRouting | Server/handler/email.go:67-82 | success exactly when the lookup, enabling and the catch-all rule all succeed; the first failure decides the message, with its prefix |
| EmailHandler.ShortCircuit | Server/handler/email.go:67-82 | a failing step decides the answer whatever the later calls would answer |
| EmailHandler.BatchEmailRouting | Server/handler/email.go:27-65 | 404 for an unknown account; otherwise one result per domain at its index |
| Auth.LockedMinutes | Server/handler/auth.go:62-68 | the minutes told are at least 1, and are the whole minutes left plus one |
| Auth.LoginStep | Server/handler/auth.go:41-121 | 400 for missing credentials; 429 exactly while locked; a failure counts and locks at the fifth; success forgets the client and issues a 24-hour token |
| Auth.LoginKeepsLockInvariant | Server/handler/auth.go:72-102 | every client at the limit stays locked for 15 minutes from its last failure, and never longer |
| Auth.LockedMinutesRange | Server/handler/auth.go:62-68 | a locked client is told between 1 and 16 minutes, and at most 15 once time has passed |
| Auth.FifthFailureLocks | Server/handler/auth.go:79-89 | the fifth failure in the window locks the client: no attempts are left, and for 15 minutes even the right password is refused with 429 |
| Auth.SuccessForgets | Server/handler/auth.go:100-120 | a successful login removes the client's entry |
| Auth.LoginGuard.Login | Server/handler/auth.go:41-121 | the attempt table and the answer are those of `LoginStep` |
| Auth.Authorize | Server/handler/auth.go:123-164 | 401 for a missing header or a token that does not verify; the request proceeds as the token's user exactly when it verifies and `exp` is absent or not passed |
| Auth.SignedTokenCheck | Server/handler/auth.go:131-141 | a signed token fails to parse exactly when its `exp` has been reached; otherwise it verifies with its user and `exp` |
| Auth.IssuedTokenLifetime | Server/handler/auth.go:104-159 | a token issued by a login is accepted while fewer than 24 hours have passed, and from then on refused with "令牌无效或已过期" by the library's own `exp` check |
| Auth.OwnExpiryCheckUnreached | Server/handler/auth.go:154-159 | the handler's own "令牌已过期" answer is never given to a signed token, since the library refuses it first |
| AccountHandler.IndexOf | Server/handler/account.go:25-31 | none exactly when no account has the id; otherwise the first position with it |
| AccountHandler.FirstWithIdUnique | Server/handler/account.go:25-31 | only one position holds the first account with an id |
| AccountHandler.IndexOfAgreesWithFind | Server/handler/account.go:51-57 | the account the batch handlers resolve is the one the store edits |
| AccountHandler.Upsert | Server/handler/account.go:23-39 | an unknown id changes nothing; a known id replaces its first account; an empty id is appended under the fresh id |
| AccountHandler.Remove | Server/handler/account.go:51-61 | an unknown id changes nothing; otherwise the first account with the id is removed |
| AccountHandler.NewAccountIsFound | Server/handler/account.go:36-39 | a new account is found under the id it was given |
| AccountHandler.RemoveDropsOne | Server/handler/account.go:53 | removal drops exactly one occurrence of the account |
| AccountHandler.AccountStore.Save | Server/models/account.go:33-42 | succeeds exactly when the write does, and only then updates the persisted copy |
| AccountHandler.AccountStore.AddAccount | Server/handler/account.go:16-46 | the list becomes the `Upsert` result; 404 for an unknown id; a failed save leaves the list changed |
| AccountHandler.AccountStore.DeleteAccount | Server/handler/account.go:48-67 | the list becomes the `Remove` result; 404 for an unknown id; a failed save leaves the list changed |
| AccountHandler.TestAccount | Server/handler/account.go:69-95 | success exactly on a 200 probe, with a message exactly on failure: the connection text or the status and body |
| AccountsView.Filtered | Frontend/src/modules/accounts.js:21-36 | the listed accounts are those of the list that pass both filters, in order |
| AccountsView.FilteredMembership | Frontend/src/modules/accounts.js:24-36 | an account is listed exactly when it is in the list and passes both filters; with no filter the whole list is kept |
| AccountsView.FilteredAppend | Frontend/src/modules/accounts.js:24-36 | the filters keep relative order |
| AccountsView.StatusBadge | Frontend/src/modules/accounts.js:128-133 | valid for a recorded true, invalid for a recorded false, untested otherwise |
| AccountsView.BadgeMatchesFilter | Frontend/src/modules/accounts.js:31-133 | the 'valid' filter keeps exactly the rows with the valid badge, and 'invalid' those with the invalid badge |
| AccountsView.CeilDiv | Frontend/src/modules/accounts.js:38 | the least number of pages of the given size that hold the count |
| AccountsView.PageWithinTotal | Frontend/src/modules/accounts.js:38-41 | a page is within the total exactly when its first row exists |
| AccountsView.VisibleSlice | Frontend/src/modules/accounts.js:38-41 | a page shows at most a page of rows, the k-th being its offset row, and is empty exactly past the last page |
| AccountsView.RowOnItsPage | Frontend/src/modules/accounts.js:38-41 | every filtered row is shown on exactly one reachable page |
| AccountsView.PageList | Frontend/src/modules/accounts.js:195-221 | every page when there are at most 7; otherwise 7 entries |
| AccountsView.PageListSteps | Frontend/src/modules/accounts.js:195-221 | numbered entries lie within the total; neighbours are consecutive, and an ellipsis stands between two numbers for at least one skipped page |
| AccountsView.PageListOrdered | Frontend/src/modules/accounts.js:195-221 | numbered entries strictly increase, and include the current page when it is real |
| AccountsView.PageListForTenPages | Frontend/src/modules/accounts.js:195-221 | the three shapes of the list for ten pages |
| AccountsView.Click | Frontend/src/modules/accounts.js:253-266 | the corrected click handler: always a page number; 'prev' on page 1 stays there |
| AccountsView.PrevOnFirstPageIsNaN | Frontend/src/modules/accounts.js:256-263 | as written, 'prev' on page 1 leaves the page NaN, and no row is shown |
| AccountsView.ClickAgreesElsewhere | Frontend/src/modules/accounts.js:256-263 | apart from that click, the written and corrected handlers agree |
| AccountsView.NumberedLinksReachRows | Frontend/src/modules/accounts.js:195-266 | every numbered link leads to a page that shows rows |
| AccountsView.FindKnown | Frontend/src/modules/accounts.js:336-340 | `find` by id succeeds exactly for the ids in the list |
| AccountsView.With | Frontend/src/modules/accounts.js:278-292 | `Set.add` adds the id at the end when new and keeps the rest |
| AccountsView.Without | Frontend/src/modules/accounts.js:281-294 | `Set.delete` removes the id and keeps the others in order |
| AccountsView.Recorded | Frontend/src/modules/accounts.js:336-356 | each tested id maps to whether its test passed; other entries are kept |
| AccountsView.Passing | Frontend/src/modules/accounts.js:336-356 | the passing ids are among the tested ids |
| AccountsView.Forgotten | Frontend/src/modules/accounts.js:385-395 | each id whose delete did not throw loses its status; other entries are kept |
| AccountsView.TestedAccountsFilter | Frontend/src/modules/accounts.js:336-356 | after a batch test, 'valid' keeps exactly the passing tested accounts and 'invalid' the failing ones |
| AccountsView.RecordOne | Frontend/src/modules/accounts.js:336-356 | testing one more id writes its outcome over the earlier ones |
| AccountsView.TestRunRecords | Frontend/src/modules/accounts.js:336-356 | in any order, the loop leaves each tested id with its own outcome and every other entry unchanged |
| AccountsView.PassingOne | Frontend/src/modules/accounts.js:336-356 | one more untested id adds one test, and one pass when it passed |
| AccountsView.CountsMatch | Frontend/src/modules/accounts.js:336-364 | the loop's pass and test counts are the passing ids and the tested ids |
| AccountsView.TestSelected | Frontend/src/modules/accounts.js:328-371 | the new status map is `Recorded` over the selected ids in the list; the counts are the passing and the failing ones |
| AccountsView.DeleteSelected | Frontend/src/modules/accounts.js:373-406 | the new status map is `Forgotten` over the selected ids |
| AccountsView.AccountsModule.FilteredAccounts | Frontend/src/modules/accounts.js:311-326 | the filtered list under the current search and status filter |
| AccountsView.AccountsModule.PageRows | Frontend/src/modules/accounts.js:38-41 | the rows of the current page of the filtered list |
| AccountsView.AccountsModule.BatchDisabled | Frontend/src/modules/accounts.js:97-101 | the batch buttons are disabled exactly when nothing is selected |
| AccountsView.AccountsModule.Search | Frontend/src/modules/accounts.js:226-230 | sets the query and goes back to page 1; nothing else changes |
| AccountsView.AccountsModule.ChooseStatus | Frontend/src/modules/accounts.js:235-239 | sets the status filter and goes back to page 1 |
| AccountsView.AccountsModule.ChoosePageSize | Frontend/src/modules/accounts.js:244-248 | sets the page size and goes back to page 1 |
| AccountsView.AccountsModule.ClickPage | Frontend/src/modules/accounts.js:253-266 | the page becomes `Click` of the old page; nothing else changes |
| AccountsView.AccountsModule.SelectAll | Frontend/src/modules/accounts.js:271-285 | every id on the page is added or removed; selections elsewhere stay |
| AccountsView.AccountsModule.ToggleOne | Frontend/src/modules/accounts.js:289-297 | exactly the row's id is added or removed |
| AccountsView.AccountsModule.BatchTest | Frontend/src/modules/accounts.js:328-371 | nothing when nothing is selected; otherwise the statuses become `Recorded` and the counts are the passing and failing selected ids |
| AccountsView.AccountsModule.BatchDelete | Frontend/src/modules/accounts.js:373-406 | nothing when nothing is selected or the user declines; otherwise `Forgotten` statuses and an empty selection |
| AppShell.RoutableIsRendered | Frontend/src/main.js:236-282 | every module the router can reach has its own view |
| AppShell.HashRoute | Frontend/src/main.js:94-96 | the route is the hash without its leading `#/` |
| AppShell.HashOf | Frontend/src/main.js:81-90 | the hash `setModule` writes routes back to the module |
| AppShell.ReplyOf | Frontend/src/main.js:112-159 | a granted login reaches the browser with its token; a refusal carries the server's error, attempts left and lock minutes |
| AppShell.LoginErrorMessage | Frontend/src/main.js:138-146 | the lock text when minutes are given, whatever else the body holds; otherwise exactly the server's non-empty error or "登录失败", followed by "\n剩余尝试次数: n" when n attempts are reported |
| AppShell.LoginRefusalMessages | Frontend/src/main.js:138-146 | for each server refusal, the user sees the lock minutes, the attempts left, or the bare error |
| AppShell.BlankUsernameIsMissing | Frontend/src/main.js:115-125 | a username of spaces is refused by the server as missing |
| AppShell.MaskedKey | Frontend/src/main.js:439-452 | `****` followed by the key's last four characters |
| AppShell.ToggleKey | Frontend/src/main.js:439-452 | a masked text shows the key, anything else the masked key; an unknown id changes nothing |
| AppShell.ToggleTwice | Frontend/src/main.js:439-452 | toggling twice restores the shown text |
| AppShell.SaveRequest | Frontend/src/main.js:454-478 | nothing is sent unless name, e-mail and key are filled; the body carries the id being edited, empty when adding |
| AppShell.AddedAccountIsAppended | Frontend/src/main.js:454-478 | an account saved while adding is appended by the server under a fresh id |
| AppShell.TestRequest | Frontend/src/main.js:369-397 | nothing is sent unless e-mail and key are filled |
| AppShell.TestVerdict | Frontend/src/main.js:369-397 | the dialog's verdict on each answer: thrown, passed, or failed with the server's reason |
| AppShell.FailedTestShowsReason | Frontend/src/main.js:384-390 | a failed server test always carries its reason |
| AppShell.SingleTest | Frontend/src/main.js:399-437 | an id in the list gets the server's verdict; an answer without `success` leaves the id with no status (stored as `undefined`); an unknown id or a thrown request changes nothing |
| AppShell.SingleAndBatchTests | Frontend/src/main.js:399-437 | single and batch tests agree when the server answers with a verdict; on a throw the batch marks the account invalid and the single test does not; on an answer without `success` (a 401 or 400 error body) the batch shows it invalid and the single test untested |
| AppShell.AppState.Screen | Frontend/src/main.js:488-491 | the login form exactly when there is no token in memory or storage |
| AppShell.AppState.Load | Frontend/src/main.js:104-110 | a routable hash picks the module; otherwise nothing changes |
| AppShell.AppState.HashChanged | Frontend/src/main.js:93-101 | only a routable module other than the current one is switched to |
| AppShell.AppState.SetModule | Frontend/src/main.js:81-90 | shows the module and writes its hash |
| AppShell.AppState.SetModuleThenHashChange | Frontend/src/main.js:81-101 | the `hashchange` that follows `setModule` changes nothing |
| AppShell.AppState.HandleAuthError | Frontend/src/main.js:20-29 | a 401 drops the token everywhere, alerts "登录已过期，请重新登录" and brings back the login form; other statuses change nothing and alert nothing |
| AppShell.AppState.Logout | Frontend/src/main.js:161-165 | the token is dropped from memory and storage |
| AppShell.AppState.HandleLogin | Frontend/src/main.js:112-159 | a granted token is stored in both places and the account list is shown; otherwise the state stays and the alert says why |
| AppShell.AppState.ResetModal | Frontend/src/main.js:360-367 | the dialog is for a new account |
| Forms.CheckedTypes | Frontend/src/modules/del_rules.js:91-94 | a type is listed exactly when its box is checked |
| Forms.CollectRuleTypes | Frontend/src/modules/del_rules.js:91-94 | the push sequence builds exactly `SelectedRuleTypes` |
| Forms.SelectedRuleTypesValue | Frontend/src/modules/copy_rules.js:93-96 | the list is the checked types in page order |
| Forms.SelectedRuleTypesKnown | Frontend/src/modules/copy_rules.js:93-98 | a type is listed exactly when its box is checked; no type is repeated; every type is one the server handles; the list is empty exactly when no box is checked |
| DnsRecordsForm.FieldOr | Frontend/src/modules/dns_records.js:122-130 | the field when present and non-empty, otherwise the fallback |
| DnsRecordsForm.PreviewRecord | Frontend/src/modules/dns_records.js:122-130 | host and type are never empty, no field holds '\|', and the domain is the first field |
| DnsRecordsForm.Preview | Frontend/src/modules/dns_records.js:122-130 | one preview row per posted line |
| DnsRecordsForm.PreviewBareDomain | Frontend/src/modules/dns_records.js:122-130 | a bare domain previews with host `@` and type `A` |
| DnsRecordsForm.PreviewFullLine | Frontend/src/modules/dns_records.js:122-130 | a full line previews as written |
| DnsRecordsForm.PreviewQueuesWhatServerDrops | Frontend/src/modules/dns_records.js:122-130 | a bare domain is queued in the preview but dropped by the server's parser |
| DnsRecordsForm.PreviewAgreesOnFullLines | Frontend/src/modules/dns_records.js:122-130 | on four non-empty trimmed fields, the preview and the server's parser give the same record |
| DnsRecordsForm.StartParse | Frontend/src/modules/dns_records.js:102-157 | the account alert, then the blank alert; otherwise the trimmed lines with TTL and flags are posted; the empty-list alert cannot fire |
| AddZoneForm.BatchAddZones | Frontend/src/modules/add_zone.js:53-88 | alert without account or text; otherwise the de-duplicated, non-empty domain list is posted |
| AddZoneForm.DedupeExample | Frontend/src/modules/add_zone.js:61-62 | repeated and blank lines collapse to the first occurrences |
| AddZoneForm.DedupeConcreteExample | Frontend/src/modules/add_zone.js:61-62 | "a.com, a.com, blank, b.com" posts ["a.com", "b.com"] |
| EmailRoutingForm.BatchEmailRouting | Frontend/src/modules/email_routing.js:56-88 | a single alert for a missing account, worker or text; otherwise the de-duplicated domains and the worker are posted |
| EmailRoutingForm.UntrimmedWorker | Frontend/src/modules/email_routing.js:58-60 | the worker name is posted untrimmed |
| ApplyCertForm.ApplyCert | Frontend/src/modules/apply_cert.js:117-126 | the account alert, then the blank alert; otherwise the domains and the wildcard flag are posted |
| ApplyCertForm.DomainLabel | Frontend/src/modules/apply_cert.js:140-169 | the label names the domain, and its wildcard when asked |
| ApplyCertForm.LabelNamesIssuedDomains | Frontend/src/modules/apply_cert.js:140-169 | the label names exactly the domains the server passes to acme.sh |
| ApplyCertForm.StepColourOf | Frontend/src/modules/apply_cert.js:179-188 | the last matching test decides the colour |
| ApplyCertForm.StepColoursDisjoint | Frontend/src/modules/apply_cert.js:179-188 | each colour is given exactly by its own test, the later tests winning |
| ApplyCertForm.DownloadLink | Frontend/src/modules/apply_cert.js:192-198 | a link exactly for a result that succeeded and has a download URL |
| ApplyCertForm.LinkForArchivedSuccess | Frontend/src/modules/apply_cert.js:192-198 | every issued certificate gets its download link |
| ApplyCertForm.RerenderIffSomeSuccess | Frontend/src/modules/apply_cert.js:206-211 | the certificate list is re-rendered exactly when some result succeeded |
| DelRulesForm.DeleteRules | Frontend/src/modules/del_rules.js:84-131 | alerts in order for account, text and rule types; a declined confirmation sends nothing; otherwise domains and types are posted |
| DelRulesForm.PostedRuleTypesKnown | Frontend/src/modules/del_rules.js:91-131 | every posted rule type is one the server handles, none repeated |
| CopyRulesForm.CopyRules | Frontend/src/modules/copy_rules.js:84-132 | alerts in order for account, source, targets and rule types; otherwise the trimmed source, the targets and the types are posted |
| ProxyToggleForm.StartToggle | Frontend/src/modules/proxy_toggle.js:88-131 | the account alert, then the blank alert; otherwise domains, type, trimmed host and the "true" test of the status are posted |
| ProxyToggleForm.AllTypesNoFilter | Frontend/src/modules/proxy_toggle.js:125-131 | with every type and no host, the server lists records without a filter |
| DelZoneForm.BatchDeleteZones | Frontend/src/modules/del_zone.js:63-99 | the account alert, then the blank alert, then a declined confirmation sends nothing; otherwise the domains are posted |
| SslSettingsForm.ApplySslSettings | Frontend/src/modules/ssl_settings.js:103-154 | alerts for account, text and no chosen setting; otherwise the server's request with the chosen values |
| SslSettingsForm.GuardMatchesServer | Frontend/src/modules/ssl_settings.js:103-120 | the form refuses exactly the requests the server would attempt nothing for |
| CacheSettingsForm.ApplyCacheSettings | Frontend/src/modules/cache_settings.js:119-170 | alerts for account, text and no chosen operation; otherwise the server's request |
| CacheSettingsForm.GuardMatchesServer | Frontend/src/modules/cache_settings.js:119-136 | the form refuses exactly the requests the server would attempt nothing for |
| OptimizationForm.ApplyOptimization | Frontend/src/modules/optimization.js:177-243 | alerts for account, text and no chosen setting; otherwise the server's request |
| OptimizationForm.GuardMatchesServer | Frontend/src/modules/optimization.js:177-202 | the form refuses exactly the requests the server would attempt nothing for |
| BulkSettingsForm.ApplyBulkSettings | Frontend/src/modules/bulk_settings.js:229-305 | alerts for account, text and no chosen setting; otherwise the server's request |
| BulkSettingsForm.GuardMatchesServer | Frontend/src/modules/bulk_settings.js:229-260 | the form refuses exactly the requests the server would attempt nothing for |
| ExportZonesForm.WireReply | Server/handler/zone.go:265-269 | as written: an empty export goes out as `null`, and a non-empty one as the zone array |
| ExportZonesForm.FixedWireReply | Server/handler/zone.go:265-269 | corrected: every export is an array, the empty one included |
| ExportZonesForm.ZoneDomains | Frontend/src/modules/export_zones.js:139-142 | the zones' domains in result order |
| ExportZonesForm.ExportTextParsesBack | Frontend/src/modules/export_zones.js:139-160 | the copied text pastes back into any bulk form as the same domain list |
| ExportZonesForm.StatusCellOf | Frontend/src/modules/export_zones.js:104-111 | the active badge exactly for "active"; otherwise the raw status |
| ExportZonesForm.ViewFor | Frontend/src/modules/export_zones.js:65-95 | the account alert without an account; "no domains" exactly for an empty array; the table exactly for a non-empty array; the request alert otherwise |
| ExportZonesForm.EmptyAccountExport | Frontend/src/modules/export_zones.js:88-95 | an account without zones gets the request alert as written, and "no domains" once corrected |
| ExportZonesForm.FixedExportNeverAlerts | Frontend/src/modules/export_zones.js:88-95 | with the corrected body, a successful export never shows the request alert |
| ExportZonesForm.ZoneExport.Export | Frontend/src/modules/export_zones.js:65-95 | the view is `ViewFor`; the stored export and the buttons change per case, and the buttons show only over a non-empty list |
| ExportZonesForm.ZoneExport.ExportedText | Frontend/src/modules/export_zones.js:139-160 | text exactly when a non-empty zone list is stored: its domains joined by newlines |
| ExportZonesForm.ZoneExport.VisibleButtonsCopy | Frontend/src/modules/export_zones.js:139-142 | whenever the buttons show, copying yields text |

## Left out

- Network, clocks and randomness:
  - HTTP calls to Cloudflare are parameters: the answers, statuses and bodies each call received, indexed by domain and by call.
  - The clock is an integer parameter in Unix seconds.
  - uuid generation is a parameter, the fresh id.
  - `GenerateRandomSecret` and JWT signing are not modelled. The middleware sees the parse result as a parameter; for a token the server signed, that result is `SignedTokenCheck`, which models golang-jwt v5's own `exp` validation (the parse fails once `exp` is reached).
- Concurrency. The goroutines and `sync.WaitGroup` of every batch handler are modelled as the index-by-index result each goroutine writes. The login table's mutex is not modelled: `Login` is one atomic step. AccountsView.TestSelected and AccountsView.DeleteSelected walk the selection as it was when the batch started; `batchTest` and `batchDelete` iterate the live `selectedAccounts` Set across their `await`s, so an id ticked while a batch runs is also visited there and not in the model.
- acme.sh, the shell, the file system and the ZIP writer (`zipCertFiles`) are parameters. These are the issue and install error outputs, whether zipping worked, the directory listing, and the set of stored files. Go's `filepath.Join` cleaning is not modelled.
- `deleteExistingRecords` (the `deleteOld` option of a DNS import) is not modelled. Its answers do not affect the result.
- `getZoneID` and `getZoneIDByDomain` are modelled as the shared `ZoneIdOf`. The JSON decoding of every body is modelled as its decoded value.
- DnsHandler.DeleteQuery: the filter strings of `DeleteQuery` and `ProxyQuery` are computed and compared, but the record listing is a parameter indexed by domain only, so which records the filter makes Cloudflare return is left to that parameter.
- `Server/main.go` (routing and static files), `Server/config/config.go` and `LoadAccounts` are not part of this model.
- The DOM, `alert`, `confirm`, spinners, `innerHTML` rendering, `renderHeader`, `renderDashboard`, `renderLogin` and `window.onerror` are not modelled. The alerts and confirmations are the values a form function returns, and `confirm` is a parameter.
- `deleteAccount` in `main.js` only calls the server and reloads. The server side is `AccountHandler.AccountStore.DeleteAccount`.
- The re-fetch and re-render after `batchDelete`, and the "deleted n accounts" alert, are not modelled.
- The DNS record deletion module of the frontend is not part of this model. Its handler, `DnsHandler.BatchDeleteDns`, is.
- Clipboard access, its `execCommand` fallback, and the Blob download of the exported text are not modelled. The model stops at the text handed to them.
- ExportZonesForm.ZoneExport.ExportedText: a stored error object makes `copyZones` and `downloadTxt` throw. That throw is modelled as no text.
- DnsRecordsForm.StartParse: the TTL select's string value is an integer parameter, because the select only offers numbers.
- Strings: whitespace for `trim`/`TrimSpace` and case for `toLowerCase` are ASCII only.
- JavaScript `slice` with a negative index is not modelled. Pages start at 1 and sizes are positive.
- AccountsView.VisibleSlice: it requires a page size from the select (25, 50, 100 or 'all'). A size of 0 never reaches the view.
- ZoneHandler.FetchAllZones requires that some page ends the loop. The source loops for as long as Cloudflare keeps reporting more pages.
- CertHandler.CertEntries: the server reports each file's size as its integer byte count (`file.Size()`), which `EntryOf` passes through. The frontend's rendering of it in kilobytes with two decimals is not modelled.
- `rules.go` passes a target domain to `copyPageRules` and never uses it. Copied page rules keep their source targets, and the model copies them unchanged.

## Findings

| source | as written | input that shows it | evidently intended | confidence | as-written member | corrected member |
|---|---|---|---|---|---|---|
| Frontend/src/modules/accounts.js:256-263 | a click on 'prev' while on page 1 fails the first test and falls through to `parseInt('prev')`, so the current page becomes NaN and the list shows no rows | current page 1, a click on the 'prev' link (reachable by keyboard or script, since the link is only styled disabled) | 'prev' on page 1 does nothing | not executed | AccountsView.ClickAsWritten (AccountsView.PrevOnFirstPageIsNaN) | AccountsView.Click (AccountsView.ClickAgreesElsewhere) |
| Server/handler/zone.go:269 | `var allZones []ExportZoneResult` starts nil, so an account without zones is answered with the JSON `null`; export_zones.js:90 then reads `data.length` on null, throws, and shows the request alert | an account with zero zones | answer `[]`, so the page shows its "no domains" message | not executed | ExportZonesForm.WireReply (ExportZonesForm.EmptyAccountExport) | ExportZonesForm.FixedWireReply (ExportZonesForm.FixedExportNeverAlerts) |
