# Linkak core, modelled in Dafny

This project models the deterministic core of Linkak. Linkak is a Flask link-in-bio and URL-shortener service. The model has one Dafny module per source file, plus a small shared module:

- **`Common`** (`common.dfy`): shared helpers.
  - Text helpers: lower-casing, substring tests, splitting and stripping.
  - Request bodies as JSON values, with Python truthiness.
  - The column coercions used when a JSON value is stored: `TextOf` and `IntOf`.
- **`Security`** (`security.dfy`, from `security.py`): the request-admission layer.
  - The client identifier.
  - The counter-store rate limiter (fixed window) and the in-memory sliding-window fallback.
  - The endpoint → (limit, window) table.
  - The ordered attack-pattern scan over URL, body, headers and method.
  - The `before_request` pipeline and the events logged by `after_request`.
  - Upload validation and the API-key and IP-whitelist decorators.

  The middleware is a class whose methods update the counter store, the fallback lists and the event log.
- **`ShortUrlModel`** (`shorturl_model.dfy`, from `src/models/shorturl.py`): the short-link record and its rules.
  - Record and dictionary: the full short URL, `to_dict`, and a class for one analytics row with its user-agent parser.
  - Codes and counters: short-code generation over the 62-letter alphabet, and the click counter.
  - The ordered keyword classifiers for device, browser and operating system.
  - `LinkStore`, a class holding the two tables as maps.
- **`ShortUrlRoutes`** (`shorturl_routes.dfy`, from `src/routes/shorturl.py`): the short-link routes.
  - Create, resolve (404 / 410 / 302) and per-link details.
  - The frequency-table summary and its `'unknown'`/`'direct'` buckets.
  - Update and delete.
- **`AccountAnalytics`** (`account_analytics.dfy`, from `src/routes/advanced.py`): account-level analytics and collaborations.
  - Analytics: the inclusive date window, the merge of per-day breakdown tables and the totals. With no stored rows, the summary route fails, because the mock generator's record constructor raises (see "## Findings"). The generator's one-record-per-day loop is modelled as intended.
  - Recommendations: type selection.
  - Collaborations: create, with its 400/404/409 checks, and update.
- **`Health`** (`health.dfy`, from `health_monitor.py`): the health monitor.
  - The SSL and system-resource thresholds.
  - The reduction of checks to an overall status.
  - The per-service failure counter that alerts and resets.
  - The reset pass of the monitor loop and the 100-report cap.
- **`Backup`** (`backup.dfy`, from `backup_scheduler.py`): the backup scheduler.
  - The retention cleanup: an age cutoff, then a cap of the newest `max_backups`.
  - The schedule-string classifier and the notification message.
  - The backup run and the status summary.

  The backup directory is a map from file name to (modification time, size).
- **`Profile`** (`profile.dfy`, from `src/routes/user.py`): the public profile routes.
  - The profile page: the featured filter and category grouping with the `'Other'` default.
  - Link routes: the active-only click redirect, ownership-guarded reordering, and partial link updates and link creation.

The database tables are maps from id to record, held in fields of store classes. Time is an integer number of seconds, and a day is 86400 of them. Each route returns an outcome datatype whose cases stand for its HTTP answers.

Some inputs the Python code obtains at run time are parameters of the model:

- random draws;
- SHA-256 and the URL validator;
- query results;
- failures of the counter store or of a commit;
- certificate readings and directory listings.

## Model

| member | source | states |
|---|---|---|
| Common.SplitJoin | security.py:372 | Joining the pieces of `split(',')` with commas gives the setting back, so the pieces are exactly its comma-separated parts. |
| Common.PyInt | src/routes/shorturl.py:197 | `int()` of a JSON value: integers as they are, booleans as 0 or 1, text through ParseInt, and an error for null, lists and objects. |
| Common.ParseIntRoundTrip | src/routes/shorturl.py:197 | `int()` reads back the decimal rendering of every integer, sign included. |
| Security.ClientIdentifier | security.py:90-97 | The identifier is 16 lower-case hex digits. It is the prefix of the digest of "address:user-agent", and the address is `X-Real-IP` when the proxy set it, else the remote address. |
| Security.IdentifierIsDeterministic | security.py:90-97 | Two requests from the same address with the same user agent get the same identifier. |
| Security.EndpointName | security.py:149 | The endpoint used for limits and keys is never empty; an unmatched route is `'unknown'`. |
| Security.RateLimitFor | security.py:151-167 | Login endpoints get (5, 300), register endpoints (3, 3600), names starting `api.` (100, 3600), everything else (1000, 3600). |
| Security.RateLimitsArePositive | security.py:151-167 | Every endpoint class admits at least 3 requests in a window of at least 300 seconds. |
| Security.StoreKeyInjective | security.py:106 | Distinct (endpoint, identifier) pairs never share a counter-store key. |
| Security.MemoryKeyInjective | security.py:129 | Distinct (endpoint, identifier) pairs never share a fallback-list key. |
| Security.StoreStep | security.py:106-120 | A request is denied exactly when the counter exists and has reached the limit, and then the counter is untouched. Otherwise the counter goes from absent to 1, or up by exactly 1. |
| Security.StoreRunFrom | security.py:106-120 | Starting from a counter `c` below the limit, the k-th further request within the window is denied exactly when `c + k` has reached the limit. |
| Security.StoreRunSaturated | security.py:115-116 | Once the counter is at or over the limit, every further request in the window is denied. |
| Security.FixedWindowAdmitsExactlyLimit | security.py:106-120 | From an empty window, exactly the first `limit` requests are admitted and all later ones are denied. |
| Security.Prune | security.py:134-138 | The pruned list keeps exactly the timestamps younger than the window, and is never longer than the original. |
| Security.PruneWindow | security.py:134-138 | The filtering loop computes the pruned list. |
| Security.MemoryStep | security.py:126-144 | A request is denied exactly when the pruned list is already full; a denial appends nothing, and an admission appends `now`. |
| Security.MemoryStepBounds | security.py:126-144 | After a call every kept timestamp is inside the window and the list grows by at most one. An admitted list never exceeds the limit, and a list within the limit stays within it. |
| Security.PruneKeepsRecent | security.py:134-138 | Pruning a list whose timestamps are all inside the window changes nothing. |
| Security.MemoryRunFrom | security.py:126-144 | For a burst at one instant on a list within the limit, the k-th request is denied exactly when the list plus k has reached the limit. |
| Security.MemoryBurstAdmitsExactlyLimit | security.py:126-144 | A burst at one instant on a fresh key admits exactly `limit` requests. |
| Security.FirstContained | security.py:193-196 | Returns the first pattern in list order that occurs in the text, or none when no pattern occurs. |
| Security.FirstFlaggedHeader | security.py:209-214 | Returns the first header, in order, whose lower-cased value contains a pattern, or none. |
| Security.DetectSuspicious | security.py:176-220 | The scan checks the URL, then a non-empty body, then each header in order, then the method. A URL, body or header hit reports the first pattern, in list order, that the lower-cased text contains; a header hit names the first header whose value contains a pattern. Anything else outside the seven allowed methods is reported as such. It reports nothing exactly when URL, body and headers are clean and the method is allowed. |
| Security.UnionSelectIsCaught | security.py:179-196 | A URL containing "union select" in any letter case is reported with that pattern. |
| Security.Screen | security.py:276-316 | Rate limiting wins and is answered with 429 and no event. An internal error admits the request. A suspicious request is blocked with one `suspicious_request` event. A POST/PUT/PATCH whose media type is outside the four allowed ones gets 400 with an `invalid_content_type` event carrying the media type before the first `;`. Everything else proceeds. |
| Security.AfterRequestEvents | security.py:330-340 | A 401 logs one authentication-failure event, a 403 or 429 one security-response event; every other status logs none. |
| Security.SecurityMiddleware.constructor | security.py:24-27 | A new middleware has the given store, no fallback lists and an empty event log. |
| Security.SecurityMiddleware.IsRateLimited | security.py:99-124 | Without a store the memory fallback decides. A store error admits the request and changes nothing. Otherwise the store counter follows the fixed-window step. Only the one key changes, and no event is logged. |
| Security.SecurityMiddleware.MemoryRateLimit | security.py:126-144 | Only the key `endpoint:identifier` changes: it becomes the pruned list, plus `now` when the request is admitted. |
| Security.SecurityMiddleware.ExpireWindow | security.py:113 | When the window's time-to-live runs out, the counter for that key disappears. |
| Security.SecurityMiddleware.BeforeRequest | security.py:273-316 | The health-check endpoint skips everything. Otherwise the request's own (limit, window) class and identifier drive the rate-limit decision, which sets the new store and fallback lists. The verdict is the screening of that decision, and exactly the screened event, if any, is appended to the log. |
| Security.ValidateUpload | security.py:246-271 | A file is accepted exactly when it exists and its declared size is within the maximum. Its name must also contain a dot, have an allowed lower-cased extension after the last dot, and contain none of the ten dangerous fragments. The defaults are 16 MiB and png/jpg/jpeg/gif. |
| Security.AcceptedNameIsPlain | security.py:265-269 | An accepted file name contains no path separator and no "..". |
| Security.ApiKeyAdmits | security.py:348-364 | A request passes exactly when no key is configured (or it is empty), or the provided key equals it. |
| Security.Pieces | security.py:372-373 | The setting (empty when unset) is cut at every comma, and each piece is stripped. No piece contains a comma. |
| Security.Whitelist | security.py:372-373 | An address is a whitelist entry exactly when it is a non-empty stripped piece of the setting. |
| Security.WhitelistAdmits | security.py:367-388 | A client passes exactly when every piece of the setting strips to nothing, or when its non-empty address is one of the stripped pieces. |
| Security.DropEmptyEmpty | security.py:373-375 | Dropping empty entries leaves nothing exactly when every entry is empty, so the whitelist counts as unconfigured exactly then. |
| Security.CommaAddressNeverWhitelisted | security.py:372-383 | With a non-empty whitelist, an address containing a comma is always refused. |
| ShortUrlModel.FullShortUrlParts | src/models/shorturl.py:58-64 | The full short URL starts with `https://` and ends in `/` + code, with the host in between. The host defaults to `linkak.com` when the domain is missing or empty. |
| ShortUrlModel.ToDict | src/models/shorturl.py:103-116 | The dictionary's `full_short_url` is the record's full short URL. |
| ShortUrlModel.ToDictRoundTrip | src/models/shorturl.py:103-116 | `to_dict` loses nothing: the record can be rebuilt from its dictionary and its owner. |
| ShortUrlModel.CharRange | src/models/shorturl.py:45 | A character range holds n consecutive code points from the first. |
| ShortUrlModel.AlphabetIsAlnum | src/models/shorturl.py:45 | The code alphabet has 62 characters, all ASCII letters or digits. |
| ShortUrlModel.CodeFromRoll | src/models/shorturl.py:47 | A code drawn from the alphabet has the roll's length and only ASCII letters and digits. |
| ShortUrlModel.FirstFreeRoll | src/models/shorturl.py:46-51 | Finds the first draw whose code is not taken, with every earlier draw taken. It finds none exactly when all draws collide. |
| ShortUrlModel.FirstFreeIsFirst | src/models/shorturl.py:46-51 | If draw k is the first free one, the retry loop returns draw k. |
| ShortUrlModel.FirstFiring | src/models/shorturl.py:154-187 | Finds the first rule in order whose keyword occurs, with no earlier rule firing, or none when no rule fires. |
| ShortUrlModel.Classify | src/models/shorturl.py:154-187 | A classification is either the fallback or one of the rules' names. |
| ShortUrlModel.ClassifyByFirstArm | src/models/shorturl.py:154-187 | The first rule that fires on the lower-cased agent decides the classification. |
| ShortUrlModel.DeviceType | src/models/shorturl.py:154-159 | The device type is one of mobile, tablet or desktop. |
| ShortUrlModel.Browser | src/models/shorturl.py:162-173 | The browser is one of Chrome, Firefox, Safari, Edge, Opera or Other. |
| ShortUrlModel.OperatingSystem | src/models/shorturl.py:176-187 | The OS is one of Windows, MacOS, Linux, Android, iOS or Other. |
| ShortUrlModel.MobileBeatsTablet | src/models/shorturl.py:154-157 | An iPad agent that says "Mobile" is classified mobile. |
| ShortUrlModel.TabletWithoutPhoneKeywords | src/models/shorturl.py:154-157 | An iPad agent without mobile, android or iphone is a tablet. |
| ShortUrlModel.ChromeBeatsSafari | src/models/shorturl.py:162-167 | Any agent mentioning Chrome is Chrome, even when it also says Safari. |
| ShortUrlModel.LinuxBeatsAndroid | src/models/shorturl.py:176-183 | An agent mentioning Linux, and not Windows or Mac, is Linux, even when it says Android. |
| ShortUrlModel.UnknownAgent | src/models/shorturl.py:154-187 | An agent matching no keyword is desktop, Other and Other. |
| ShortUrlModel.NewClickEvent | src/models/shorturl.py:134-146 | A new analytics row keeps its link, time, referrer, agent and address. Device, browser and OS are filled, by the classifiers, exactly when the agent is non-empty, and the location exactly when the address is non-empty. |
| ShortUrlModel.UrlAnalytics.constructor | src/models/shorturl.py:134-146 | The constructed row is the new analytics row for its inputs. |
| ShortUrlModel.UrlAnalytics.ParseUserAgent | src/models/shorturl.py:148-187 | Parsing sets device, browser and OS to the three classifications and changes no other field. |
| ShortUrlModel.LinkStore.constructor | src/models/shorturl.py:12-24 | A new store has no links and no clicks, starts ids at 1, and satisfies the unique-column invariant. |
| ShortUrlModel.LinkStore.GenerateShortCode | src/models/shorturl.py:42-51 | A generated code has the requested length and only letters and digits, and no existing record uses it. It is the first draw that is free, and it fails only when every draw collides. |
| ShortUrlModel.LinkStore.IncrementClick | src/models/shorturl.py:53-56 | The link's click count goes up by exactly one and nothing else changes. |
| ShortUrlModel.LinkStore.Insert | src/models/shorturl.py:12-24 | A commit fails, changing nothing, exactly when the code or the alias is already in use. Otherwise the record is stored under the next id, and the unique-column invariant is kept. |
| ShortUrlModel.LinkStore.AddClick | src/models/shorturl.py:119-132 | An analytics row for an existing link is appended. |
| ShortUrlModel.LinkStore.Delete | src/models/shorturl.py:28 | Deleting a link removes it together with all of its analytics rows, which is the cascade. |
| ShortUrlRoutes.ExpiryFrom | src/routes/shorturl.py:28-31 | An expiry is set exactly when `expires_days` is a truthy integer, and it is then now + that many days. |
| ShortUrlRoutes.ShortenUrl | src/routes/shorturl.py:11-72 | 400 for a missing body or URL. 400 for a URL the validator rejects. 409, with nothing stored, when the alias is some record's alias. With no alias, the request runs out of codes exactly when every draw collides. Otherwise one record is stored under the next id, with the code equal to the alias or to the first free generated code. A commit fails, leaving the store unchanged, only on a taken unique column or a list or object `domain`; a stored record never comes from such a domain. |
| ShortUrlRoutes.RedirectToUrl | src/routes/shorturl.py:74-100 | 404 exactly when no record has the code; 410 for an inactive or expired record. On a redirect the target is the original URL, the click count goes up by one and exactly one analytics row is added. |
| ShortUrlRoutes.ExpiryIsStrict | src/routes/shorturl.py:84 | A link expiring exactly now still resolves; one second later it is gone. |
| ShortUrlRoutes.Bump | src/routes/shorturl.py:141 | Counting a key adds it to the table's keys. |
| ShortUrlRoutes.TallyCounts | src/routes/shorturl.py:138-157 | A frequency table's keys are exactly the values that occur, and each count is the number of occurrences. |
| ShortUrlRoutes.TotalWithout | src/routes/shorturl.py:138-157 | A table's total is any one entry plus the total of the rest. |
| ShortUrlRoutes.TotalBump | src/routes/shorturl.py:141 | Counting one more row raises the table's total by exactly one. |
| ShortUrlRoutes.TallyTotal | src/routes/shorturl.py:138-157 | A frequency table's counts sum to the number of rows. |
| ShortUrlRoutes.Column | src/routes/shorturl.py:140-152 | Each row contributes its bucket key, in order. |
| ShortUrlRoutes.Days | src/routes/shorturl.py:156 | Each row contributes its click day, in order. |
| ShortUrlRoutes.Summarize | src/routes/shorturl.py:129-157 | `total_clicks` is the link's counter, and the five tables are the frequency tables of the rows' buckets. |
| ShortUrlRoutes.ColumnTableCountsRows | src/routes/shorturl.py:138-157 | Each bucket table sums to the row count and contains every row's bucket. |
| ShortUrlRoutes.SummaryTablesCountEveryRow | src/routes/shorturl.py:138-157 | All five summary tables sum to the number of analytics rows. A row without a device counts under `'unknown'` and one without a referrer under `'direct'`. |
| ShortUrlRoutes.RecentClicks | src/routes/shorturl.py:165 | The recent list is the first min(10, n) rows. |
| ShortUrlRoutes.ClicksFor | src/routes/shorturl.py:126 | Selects exactly the analytics rows of one link. |
| ShortUrlRoutes.GetUrlDetails | src/routes/shorturl.py:119-168 | 404 unless the link exists and belongs to the caller. Otherwise the answer holds the link's dictionary and the summary of its rows. It also holds at most 10 recent rows, newest first. |
| ShortUrlRoutes.Patched | src/routes/shorturl.py:180-199 | An update keeps the id, URL, owner, creation time and clicks. An unchanged alias keeps alias and code, and a new text alias becomes both. A present `domain` becomes its text, or NULL. `is_active` becomes the truthiness of the value. A truthy `expires_days` sets the expiry to now plus `int()` of it in days, and a falsy one clears it. Absent fields are unchanged. |
| ShortUrlRoutes.PatchIsIdempotent | src/routes/shorturl.py:180-199 | Applying the same update twice gives the same record as applying it once. |
| ShortUrlRoutes.UpdateUrl | src/routes/shorturl.py:170-209 | Each outcome is stated both ways. 404 exactly when not owned, 400 exactly when there is no data. 409 exactly when the alias changes to one another record holds. 500 before the commit exactly when `int()` cannot read a truthy `expires_days`. 500 at the commit exactly when the new alias is NULL, the domain is a list or an object, or another record holds the new code or alias. Success in every other case: only this record changes, to the patched record, and the reply is its dictionary. |
| ShortUrlRoutes.ReplaceKeepsUnique | src/models/shorturl.py:17-18 | Replacing a record by one whose code and alias no other record holds keeps short codes and aliases unique. |
| ShortUrlRoutes.DeleteUrl | src/routes/shorturl.py:211-223 | An owned link is removed with its analytics rows; anything else changes nothing. |
| AccountAnalytics.AddTable | src/routes/advanced.py:153-155 | Folding one table into the accumulator unions the keys and adds the counts. |
| AccountAnalytics.MergedIsUnionAndSum | src/routes/advanced.py:151-167 | A merged table's keys are the union of the records' keys, and each value is the sum of that key across records. |
| AccountAnalytics.MergeOneMore | src/routes/advanced.py:153-155 | Merging one more record folds its table into the previous merge. |
| AccountAnalytics.MergeTables | src/routes/advanced.py:151-167 | The nested accumulation loops compute the merge of all tables. |
| AccountAnalytics.AddInto | src/routes/advanced.py:154-155 | The inner loop adds one record's table into the accumulator. |
| AccountAnalytics.DeviceTables | src/routes/advanced.py:154 | Lists each record's device table, in order. |
| AccountAnalytics.LocationTables | src/routes/advanced.py:160 | Lists each record's location table, in order. |
| AccountAnalytics.ReferrerTables | src/routes/advanced.py:166 | Lists each record's referrer table, in order. |
| AccountAnalytics.SummarizeRecords | src/routes/advanced.py:145-175 | The totals are the sums of views and visitors, and the three tables are the merges. The time series has one point per record, in record order, so it is in date order when the records are. |
| AccountAnalytics.Window | src/routes/advanced.py:130-139 | The window ends today and starts `days` earlier. It covers `days + 1` calendar days, both ends inclusive, and is empty for a negative count. |
| AccountAnalytics.MockRecords | src/routes/advanced.py:193-247 | One record per draw, dated start, start+1, …, carrying the drawn figures, so the dates strictly increase. |
| AccountAnalytics.MockConstructorRaises | src/routes/advanced.py:231-238 | The mock generator passes `bounce_rate` and `avg_time_on_page` to a constructor that declares neither (src/models/advanced_features.py:69), so the call raises TypeError. |
| AccountAnalytics.InWindow | src/routes/advanced.py:134-138 | The range query holds exactly the user's records dated from the window's start to today. |
| AccountAnalytics.InWindowCounts | src/routes/advanced.py:134-138 | Each such record occurs as often as it is stored, and no other record occurs. |
| AccountAnalytics.MockTotalsBounded | src/routes/advanced.py:200-201 | With draws in range, the total views lie between 50n and 200n. The visitors lie between 30n and the total views. |
| AccountAnalytics.RecommendationKinds | src/routes/advanced.py:31-88 | `all` or no type gives layout, content and theme. One of those three gives just that one, and any other type gives none. The kinds never repeat. |
| AccountAnalytics.AdvancedStore.constructor | src/models/advanced_features.py:210-211 | A new store has empty analytics, recommendation and collaboration tables and starts collaboration ids at 1. |
| AccountAnalytics.AdvancedStore.GenerateMockAnalytics | src/routes/advanced.py:193-254 | The generator as evidently intended, with a constructor that accepts the two float columns. The loop stores and returns one record per day of the inclusive range. A failed commit returns nothing and stores nothing. |
| AccountAnalytics.AdvancedStore.GetAnalyticsSummary | src/routes/advanced.py:125-191 | The route as written. Its input rows are the window's stored rows, each as often as stored, in date order. With rows, the summary sums their views and visitors and merges their tables. `time_series` holds one point per row, with its date, views and visitors, in date order. With no rows and a window of at least one day (the default is 30 days), the mock generator raises and the answer is 500. With an empty window (negative `days`), the summary covers no records. Nothing is ever stored. |
| AccountAnalytics.AdvancedStore.GenerateRecommendations | src/routes/advanced.py:26-98 | Without a body nothing is stored. Otherwise exactly one unapplied recommendation per selected kind is appended, in the order layout, content, theme. |
| AccountAnalytics.AdvancedStore.CreateCollaboration | src/routes/advanced.py:343-387 | Each outcome is stated both ways. 400 exactly when a required field is missing. 404 exactly when the collaborator email is unknown. 500 before the insert exactly when the email, or for a known user the resource type or id, is a list or an object, which the lookup query cannot bind. 409 exactly when the same owner, collaborator, resource type and resource already exist. 500 exactly when, past those checks, a required column is null or the permission level is a list or an object. Otherwise exactly one new collaboration is stored, under the next id. |
| AccountAnalytics.AdvancedStore.UpdateCollaboration | src/routes/advanced.py:389-414 | 404 exactly when not owned, 400 exactly when there is no data, and 500 exactly when `permission_level` is sent as null, a list or an object; nothing changes then. Otherwise the update succeeds: only `permission_level` changes, and only when present. |
| Health.SslCheck | health_monitor.py:168-207 | `localhost` is skipped, and an unreadable certificate is unhealthy with its error. Fewer than 7 days left is critical, 7 to 29 a warning, and 30 or more healthy. |
| Health.SystemCheck | health_monitor.py:128-166 | Critical exactly when CPU, memory or disk exceeds 90 percent, else healthy, with one alert per metric over the threshold. |
| Health.LastFailing | health_monitor.py:222-232 | Finds the last unhealthy or critical check, or none. |
| Health.PerformHealthCheck | health_monitor.py:209-252 | The loop computes the overall status and the issue and warning lists of the checks, in order. |
| Health.OverallIsLastFailure | health_monitor.py:222-232 | The overall status is healthy exactly when no check fails, and is always healthy, unhealthy or critical. The last failing check decides it, so earlier checks do not matter once a later one fails. |
| Health.LastFailingOfConcat | health_monitor.py:222-232 | In a concatenation, the last failure is in the second part if that part has one, else in the first. |
| Health.FailureStep | health_monitor.py:254-261 | One failure raises the count. Reaching the threshold sends exactly one alert and resets the count to zero. |
| Health.FailuresAlertOncePerThreshold | health_monitor.py:254-261 | With a threshold of at least 1, n consecutive failures send one alert per threshold failures, and the count stays below the threshold. |
| Health.HealthMonitor.constructor | health_monitor.py:38-44 | A new monitor has the given threshold, no counts, no alerts and no saved reports. |
| Health.HealthMonitor.HandleFailure | health_monitor.py:254-261 | Only this service's count changes, by one failure step, and an alert for it is sent exactly when the step reaches the threshold. |
| Health.HealthMonitor.ProcessReport | health_monitor.py:333-338 | Counts and alerts evolve as the reset pass specifies: each failing check is handled as a failure and each other check resets its service to zero. |
| Health.ProcessedKeepsCountsBelow | health_monitor.py:333-338 | After a pass every count is still below the threshold, every checked service has a count, and a service whose last check did not fail is at zero. |
| Health.HealthMonitor.SaveHealthReport | health_monitor.py:298-321 | The saved list is the old list plus the new report, cut to its last 100 entries. |
| Health.KeepLast | health_monitor.py:312-314 | Keeps the last min(n, length) entries, in order. |
| Backup.Insert | backup_scheduler.py:94 | Inserting into a newest-first list keeps it newest first and adds exactly that entry. |
| Backup.Ranked | backup_scheduler.py:94 | The ranking is newest first and a permutation of the files. |
| Backup.Entries | backup_scheduler.py:87-91 | Pairs each listed file with its modification time, in listing order. |
| Backup.SliceStart | backup_scheduler.py:105 | The slice start of a Python slice is within the list and, for a non-negative start, is the start capped at the length. |
| Backup.KeptAreRecent | backup_scheduler.py:80-101 | Every file left after cleanup is unchanged and at least as new as the cutoff. |
| Backup.KeptAreNewest | backup_scheduler.py:93-110 | Every file left is among the `max_backups` newest, so at most `max_backups` remain. |
| Backup.NamesOfSize | backup_scheduler.py:104-110 | A list of entries names at most as many files as it has entries. |
| Backup.Schedule | backup_scheduler.py:203-228 | Exactly `0 2 * * *` is daily at 02:00. A `0 2 * * 0` prefix is Sunday at 02:00, a `0 */6` prefix is every 6 hours, and anything else is daily at 02:00. The 03:00 cleanup is always scheduled. |
| Backup.Message | backup_scheduler.py:120-124 | The message is "Linkak kind backup SUCCESS" or "… FAILED", followed by ": error" only for a failure with a non-empty error. |
| Backup.Notify | backup_scheduler.py:117-149 | A webhook notice is sent exactly when a webhook is configured; it carries the message and, when present, the error. An email is sent only on failure and only when an address is configured. |
| Backup.BackupScheduler.constructor | backup_scheduler.py:31-44 | A new scheduler has the given retention, cap and directory, and no notices. |
| Backup.BackupScheduler.CleanupOldBackups | backup_scheduler.py:74-115 | The directory becomes the kept files, and the removal count is the number of distinct files removed. |
| Backup.BackupScheduler.RunBackup | backup_scheduler.py:46-72 | Only a zero exit status triggers cleanup and a success notice. A non-zero exit, a timeout or an error leaves the directory alone and sends a failure notice with stderr, "Backup timed out" or the error text. |
| Backup.BackupScheduler.GetBackupStatus | backup_scheduler.py:161-193 | The status counts all files and sums their sizes. It shows the first 10 of the newest-first ranking. `last_backup` is the newest modification time, and is absent exactly when the directory is empty. |
| Backup.Clean | backup_scheduler.py:80-110 | The two removal loops leave exactly the kept files and count each removed file once. |
| Backup.DropStale | backup_scheduler.py:97-101 | Removes exactly the files older than the cutoff and counts them. |
| Backup.DropListed | backup_scheduler.py:104-110 | Removes exactly the listed files still present; the existence guard means each is counted once. |
| Backup.ListedOnce | backup_scheduler.py:87-91 | A listing names every file exactly once. |
| Backup.NewestIsFirst | backup_scheduler.py:188 | The first ranked entry is the newest file's time. |
| Profile.CategoryOf | src/routes/user.py:338 | A link's category is never empty; a missing one is `'Other'`. |
| Profile.Featured | src/routes/user.py:333 | The featured list holds exactly the featured links. |
| Profile.FeaturedConcat | src/routes/user.py:333 | Filtering distributes over concatenation. With FeaturedOne, the featured list is the in-order subsequence of featured links. |
| Profile.FeaturedOne | src/routes/user.py:333 | One link is kept exactly when it is featured. |
| Profile.FeaturedSnoc | src/routes/user.py:333 | One more link extends the featured list by itself exactly when it is featured. |
| Profile.FeaturedKeepsOrder | src/routes/user.py:330-333 | Featured links stay in `display_order` order, with NULL first or last as the database places it. |
| Profile.FeaturedKeepsDistinct | src/routes/user.py:330-333 | The featured list holds each link at most once when the query does. |
| Profile.MembersAreCategory | src/routes/user.py:336-341 | A category's group holds exactly the links of that category. |
| Profile.MembersKeepOrder | src/routes/user.py:330-341 | Every group stays in `display_order` order, with NULL first or last as the database places it. |
| Profile.CategoriesAreDistinct | src/routes/user.py:336-341 | The group keys are exactly the categories that occur, each once. |
| Profile.GroupByCategory | src/routes/user.py:336-341 | The loop produces one group per occurring category, in first-appearance order, holding exactly that category's links in order. |
| Profile.GroupStep | src/routes/user.py:337-341 | One more link opens its category if new and is appended to that group only. |
| Profile.ExactlyOneGroup | src/routes/user.py:336-341 | Every link appears in exactly one group, its own category's. |
| Profile.Patched | src/routes/user.py:158-193 | An update never changes the id, owner or clicks. The commit succeeds exactly when title and URL, if given, are text, and no other column is given a list or an object. |
| Profile.PatchedKeepsAbsent | src/routes/user.py:158-188 | Every column the body does not name keeps its value; settings change only for an object. |
| Profile.PatchedTakesPresent | src/routes/user.py:158-188 | Each column the body names takes the body's value. A text title or URL becomes that text. The other text columns become the text or NULL, and the integer columns the integer or NULL. `is_active` and `is_featured` take the value's truthiness, and object settings replace the old ones. |
| Profile.PatchIdempotent | src/routes/user.py:158-193 | The same update applied twice equals it applied once, and a body with no link fields changes nothing. |
| Profile.Reordered | src/routes/user.py:229-236 | Reordering never adds or removes links. |
| Profile.ReorderTouchesOnlyNamedOwnLinks | src/routes/user.py:229-236 | Reordering changes only `display_order`. It changes it only for links of the caller that some entry names with a truthy id and a non-null order. |
| Profile.NewLink | src/routes/user.py:119-135 | A new link has the given title and URL and is active with no clicks. It is featured only when asked. Its order is 0 and its type `standard` when the key is missing or null, since the column default then applies. It has settings when an object is given. |
| Profile.WithDefault | src/routes/user.py:128-129 | A missing or null value leaves the column to its default; any other value is coerced. |
| Profile.ProfileStore.constructor | src/models/user.py:102-103 | A new store has the given users, no links, and starts link ids at 1. |
| Profile.ProfileStore.ViewProfile | src/routes/user.py:324-347 | 404 exactly when no active user has the name. Otherwise the page shows that user and the active links, with the featured subsequence and the category groups. Given rows ordered by `display_order` (NULL placed as the database does) and each link once, the featured list and every group are ordered and the featured list has no repeats. |
| Profile.ProfileStore.RedirectLink | src/routes/user.py:349-363 | The redirect succeeds exactly for an active link owned by the active user with that name. It goes to the link's URL and raises its click count by one; otherwise nothing changes. |
| Profile.ProfileStore.ReorderLinks | src/routes/user.py:219-242 | 400 without a `links` list. 500, with nothing changed, exactly when the list is malformed or some qualifying entry has a list or object id, or gives one of the caller's links a list or object order. Otherwise the links are reordered as specified. |
| Profile.ProfileStore.UpdateLink | src/routes/user.py:148-203 | 404 exactly when not owned, 400 exactly when there is no data, 500 exactly when the patch would make title or URL non-text or give a column a list or an object. Otherwise it succeeds, and only this link changes, to the patched link; failures change nothing. |
| Profile.ProfileStore.CreateLink | src/routes/user.py:108-146 | 400, with nothing stored, exactly without title or URL. 500 exactly when either is not text or another stored column is given a list or an object. Otherwise it succeeds, and exactly one new link is stored under the next id. |

## Findings

| source | as written | input that shows it | evidently intended | confidence | as-written member | corrected member |
|---|---|---|---|---|---|---|
| src/routes/advanced.py:231-238 | `generate_mock_analytics` passes `bounce_rate=` and `avg_time_on_page=` to `AdvancedAnalytics(...)`, whose `__init__` (src/models/advanced_features.py:69) declares neither. The call is outside the `try`. | `GET /api/analytics/summary` by a user with no analytics rows in the last 30 days: TypeError at the first loop turn, 500, nothing stored | one stored mock record per day of the window, summarised | high, not executed | AccountAnalytics.AdvancedStore.GetAnalyticsSummary, AccountAnalytics.MockConstructorRaises | AccountAnalytics.AdvancedStore.GenerateMockAnalytics, AccountAnalytics.MockTotalsBounded |

## Left out

- HTTP plumbing is not modelled:
  - Flask request objects, blueprints, templates, login sessions and error handlers;
  - security headers, logging, and the QR-code image (`src/models/shorturl.py:66-101`);
  - each route's JSON response body beyond the fields named in its contract.

  Request data are plain inputs, and each route's answer is an outcome value.
- Redis networking and the TTL clock are not modelled. The store is a key→count map, and `Security.SecurityMiddleware.ExpireWindow` is the window running out.
- Concurrency is not modelled. The get-then-incr race and the unlocked fallback dict under several workers are outside the model, which is sequential.
- SHA-256 is a function parameter returning a 64-digit hex digest, and `validators.url` is a predicate parameter.
- Geolocation (`src/models/shorturl.py:189-197`) is a placeholder. The model only records whether country and city are filled.
- Random draws are parameters:
  - the short-code characters;
  - the mock analytics values;
  - the mock breakdown tables, whose contents are not constrained.
- ShortUrlModel.LinkStore.GenerateShortCode: gets a finite list of draws and reports exhaustion. The source retries forever, so this is a bounded rendering of the same loop.
- ShortUrlRoutes.ShortenUrl: it checks only the `custom_alias` column for conflicts, as the code does, rather than all codes. An alias that equals another record's generated code therefore fails at commit, which leaves the store unchanged (500), instead of answering 409.
- Database failures are not modelled as such. The model keeps only:
  - the unique short-code and alias columns;
  - NOT NULL text columns receiving null or non-text JSON;
  - an explicit commit-failure flag for mock analytics.

  Failures of `generate_recommendations`' commit and of `delete_url`'s commit are not modelled.
- Column coercion is approximated:
  - JSON lists and objects cannot be bound by the database driver. Storing one fails the commit, and querying with one raises. The link and collaboration routes, and a short link's `domain`, model this as a 500 with nothing changed;
  - other JSON values stored in text columns become null when not strings (`TextOf`);
  - integer columns accept integers and booleans (`IntOf`);
  - `is_featured` on create uses Python truthiness;
  - a collaboration's `resource_id` is compared as a JSON value.
- ShortUrlRoutes.ExpiryFrom: `isinstance(x, int)` is true for JSON booleans, and `true` counts as one day. A numeric string is not an int and sets no expiry.
- ShortUrlRoutes.UpdateUrl: an `expires_days` that `int()` cannot read raises an error (500), and the model answers that case without changing the store. JSON numbers with a fraction are not part of the `Json` type, so `int(2.5)` is not modelled. `int()` of text is modelled on ASCII digits with an optional sign and surrounding whitespace; digit-group underscores and non-ASCII digits are not modelled.
- ShortUrlRoutes.ExpiryFrom, ShortUrlRoutes.ShortenUrl, ShortUrlRoutes.Patched and ShortUrlRoutes.UpdateUrl: time is an unbounded count of seconds. Python's `datetime` range (years 1 to 9999) and `timedelta`'s limit of 999999999 days are not modelled. An `expires_days` that pushes the expiry out of range raises OverflowError in the source (500); the model stores the computed expiry instead.
- AccountAnalytics.Window: `date.today() - timedelta(days=days)` raises OverflowError (500) when the start leaves the `date` range, which the model, on unbounded day numbers, does not capture.
- Backup.BackupScheduler.CleanupOldBackups: a retention that moves the cutoff before year 1 raises inside the `try`, so the source removes nothing. The model, on unbounded time, still applies both rules.
- ShortUrlRoutes.ShortenUrl and ShortUrlRoutes.UpdateUrl: a truthy `custom_alias` that is not a string, such as 42 or a list, is treated like a missing alias. In the source it takes the alias path: a list or an object makes the alias query raise (500), and a number is handed to the text columns, where the result depends on the database driver.
- Common.Strip and Common.Lower: only ASCII is modelled. `str.strip()` also removes `\x85`, `\xa0` and the Unicode spaces, and `str.lower()` folds non-ASCII letters. A whitelist entry padded with a no-break space is therefore stripped by the source but not by the model.
- Query results are inputs, constrained by `requires` to be the answer of the query:
  - the analytics rows of a link, newest first;
  - the stored account analytics in the window (the same multiset as `InWindow` of the table);
  - the active links of a profile.

  The profile rows are required to be ordered by `display_order`, with NULL first (SQLite) or last (PostgreSQL) as a parameter says, and to hold each link once. The rows' order within equal `display_order` values is whatever the input gives.
- The `days` query value is an optional integer. A value that `int()` rejects (a 500) is not modelled.
- Floating-point outputs are left out:
  - average bounce rate and time on page;
  - slow-request durations;
  - `format_bytes`.

  The psutil percentages are `real` inputs, and the alert text renders them through a parameter.
- The SSL socket, certificate parsing and the other health probes are inputs. A `CertReading` is the days left or the exception text, and each probe's result is a check value.
- Health.HealthMonitor.SaveHealthReport: the daily report file is a field; file I/O and its errors are not modelled.
- Alerts, webhooks and email are recorded, not delivered:
  - `send_alert` appends to an alert log;
  - backup notifications are `Notice` values holding the message, the error and whether an email goes out.
- The backup script's own output is not modelled. The directory is what the listing shows, and `os.remove` failures are not modelled.
- Backup.BackupScheduler.GetBackupStatus: sorts by modification time. The code sorts by the ISO timestamp string, which orders the same way for local times within one offset.
- Scheduling and timing are not modelled: the `schedule` runner, the health-monitor loop's sleep and the immediate-backup entry point. The schedule is a list of jobs.
- Other routes in the same files are not part of this model:
  - `delete_link`, the profile settings routes and menu routes;
  - `get_recommendations`, `apply_recommendation`, scheduled content;
  - `get_collaborations` and `delete_collaboration`;
  - the domain and QR-code listing routes.
- Profile.ProfileStore.ReorderLinks: only JSON integer ids match a link. A numeric string id, which the database would coerce, matches nothing.
- Security.Screen: the `fault` flag stands for an exception raised anywhere between the rate-limit check and the content-type check; where in that span it is raised is not distinguished.
