# affiliate-hub core, modelled in Dafny

affiliate-hub is a dashboard with a companion batch job. Publishers of
affiliate programmes use it to watch four networks: AWIN, Addrevenue,
Impact and Partnerize. This project models the deterministic core of its
two programs, `app.py` and `job.py`, and proves properties of that model.

- **Programme diff and alert engine** (`alerts.dfy`, `locking.dfy`).
  - `sync_and_alert` keeps one snapshot of AWIN programmes per
    (advertiser id, country).
  - It inserts new programmes, deletes vanished ones and rewrites ones
    whose status or relationship changed.
  - It mails and logs a `new`, `removed` or `closed` alert when the
    alert's toggles allow it.
  - Fetched fields keep their JSON values. The table holds them as its
    TEXT columns would: text, or None for NULL. A field that cannot be
    bound, or a closing test that calls `.lower()` on a value that is not
    text, raises inside the section, and the section's table changes are
    then lost.
  - A fetch that raises takes the `feed_failure` path instead. That path
    is throttled per country by a cooldown.
  - `ProgrammeStore` is a class holding the `programmes` table, the
    `alert_log` table and the process-wide throttle. Its methods update
    them in place, loop by loop as the source does.
- **Commission aggregation** (`commissions.dfy`, `numbers.dfy`,
  `subid.dfy`, `batching.dfy`, `earnings_job.dfy`).
  - The per-network aggregators:
    - filter rows by sub-id;
    - probe field names for amounts and currencies;
    - bucket statuses into confirmed, pending or ignored;
    - convert at an fx rate that is 1.0 whenever the codes agree.
  - The AWIN 31-day window guard and its advertiser batches of fifty.
  - Impact's ten-page cap.
  - `to_num` and `normalize_metrics`.
  - The job's grand totals.
- **Feed and link maps and market matching** (`feeds.dfy`,
  `partnerize.dfy`, `urlmaps.dfy`, `market.dfy`).
  - The de-duplicating first-seen URL maps of Impact catalogues,
    Addrevenue product feeds and Partnerize feeds.
  - The first-link-wins tracking map.
  - The feed and link pickers.
  - `_relationship_str`.
  - The Partnerize participation normaliser and the paging stops of both
    Partnerize loops.
  - The Impact `campaign_matches_market` policy.

JSON values are `PyValue.Value`, which has None, booleans, integers,
floats as reals, text, lists and objects. Python's truthiness, `or`
chains, `str()`, `strip`, `lower`/`upper`, `int()` and `float()` are
spelled out in `pyvalue.dfy`. A few behaviours are library detail the
source cannot show: the text of `str()` on floats and containers, and
`float()`/`int()` parsing of text. These are passed in as a `Builtins`
record of functions. Every HTTP request is a parameter returning
`Result`. So are the SMTP outcome and the FX service. The clock is a
single reading `now`.

`job.py` repeats several aggregators of `app.py`. There is one model of
each, which follows `job.py`. The copies compute the same totals from the
same rows, but their `meta` dicts differ, and so does one request; "## Left
out" lists each difference under the member that models the pair:
- `normalize_metrics` is job.py:145-155 and app.py:1404-1420; the
  `Origin` parameter picks where they differ.
- `get_fx_rate` is job.py:119-132 and app.py:179-192.
- The Addrevenue aggregator is job.py:379-436 and app.py:238-294.
- The Impact aggregator is job.py:464-543 and app.py:337-466.
- The AWIN aggregators are job.py:184-352, app.py:1040-1118 and
  app.py:1120-1247.

## Model

| member | source | states |
|---|---|---|
| Alerts.AllowedNeedsBothFlags | app.py:923-931 | a kind is allowed exactly when alerts are on, the kind is one of new/removed/closed/feed_failure, and its own toggle is set; unknown kinds never are |
| Alerts.AlertAllowed | app.py:923-931 | a kind is allowed only when alerts are on and it is one of the four kinds; `AllowedNeedsBothFlags` states each toggle |
| Alerts.SendEmail | app.py:901-921 | alerts off gives `(False, "alerts disabled")`; incomplete SMTP settings give `(False, "SMTP not fully configured")`; otherwise the session's outcome |
| Alerts.LogRowOf | app.py:933-941 | a missing mail result is logged as not attempted; `email_sent` is 1 exactly when the result's flag is true; `email_info` is a prefix of the info: the whole info up to 500 characters, else exactly its first 500 |
| Alerts.MailedRow | app.py:953-957 | the row carries the alert's kind, country, id and time, and is marked sent exactly when alerts are on, SMTP is configured and delivery succeeded |
| Alerts.FeedFailureRows | app.py:949-958 | a failed fetch logs exactly one feed_failure row when the kind is allowed and the country is due, and none otherwise |
| Alerts.FeedStateAfter | app.py:949-958 | the throttle records `now` for the country exactly when the alert fires, and is otherwise unchanged |
| Alerts.CooldownSuppresses | app.py:952 | a second failure for the same country within `ALERT_COOLDOWN_MIN*60` seconds of an alert neither mails nor logs, and leaves the throttle as it is |
| Alerts.CooldownExpires | app.py:952 | once the cooldown has passed the next failure alerts again |
| Alerts.ThrottleIsPerCountry | app.py:951-958 | one country's failure never changes another country's throttle entry |
| Alerts.SeenStep | app.py:963-971 | an entry passes exactly when it is an object whose id is None or converts with `int()`, and the `seen` it leaves lists each id once |
| Alerts.SeenFrom | app.py:961-971 | a `seen` dict the loop gets through with lists each kept id exactly once |
| Alerts.SeenOkIff | app.py:963-967 | the loop gets through exactly when every entry is an object whose id is None or converts with `int()` |
| Alerts.SeenOkEntry | app.py:963-967 | when the loop gets through, every entry was an object with a None or integer id |
| Alerts.EntriesOkSeen | app.py:963-967 | when every entry is such an object, the loop gets through |
| Alerts.SeenStepIds | app.py:965-967 | one turn adds exactly the entry's id, if it has one |
| Alerts.SeenIds | app.py:963-971 | the kept ids are exactly the ids of the entries that carry one |
| Alerts.SeenIdFrom | app.py:963-971 | every kept id comes from some entry |
| Alerts.SeenIdKept | app.py:963-971 | every entry's id is kept |
| Alerts.SeenLastWins | app.py:967-971 | a later duplicate id overwrites an earlier one: each id holds the programme of the last entry carrying it |
| Alerts.SeenErrKeeps | app.py:963-971 | after a failing entry nothing later matters |
| Alerts.BuildSeen | app.py:961-971 | the loop's result is `SeenFrom` of the fetched entries |
| Alerts.Column | app.py:984-989 | binding a value into a TEXT column and reading it back: text and None are kept, a bool or an int in the signed 64-bit range becomes its digits, a float sqlite's text for it; a wider int raises OverflowError and a list or object raises, and the result is always text or None |
| Alerts.StoredInfo | app.py:1011-1015 | once written, every bindable programme's fields are text or None; fields that already are stay as they are |
| Alerts.Stored | app.py:984-989 | the bind of the fields of an `INSERT` or `UPDATE` succeeds exactly when no field is a list, an object or an int beyond 64 bits, and gives the stored fields |
| Alerts.InsertBind | app.py:984-989 | the `INSERT` binds the id first: an id beyond 64 bits raises OverflowError; otherwise it succeeds exactly when the fields bind, and gives the stored fields |
| Alerts.WideIdRaises | app.py:984-989 | a fetched, unstored id beyond 64 bits raises OverflowError at its `INSERT`, so the section does not commit |
| Alerts.Previous | app.py:975-979 | the snapshot holds exactly the country's stored ids, each with its stored name, status and relationship |
| Alerts.LowerOr | app.py:1016 | `(v or "").lower()` raises exactly on a truthy value that is not text, and lower-cases text |
| Alerts.ClosedCheck | app.py:1016 | the closing test on text fields is closed/deactivated/suspended for the status or rejected/suspended for the relationship; a truthy non-text status raises; it holds only with a closing text status or relationship |
| Alerts.TextFetchSyncs | app.py:982-1022 | a fetch whose ids and fields all bind (no list, object or int beyond 64 bits) and whose statuses and relationships are text never makes the section raise |
| Alerts.SeenKeys | app.py:982-989 | every fetched id has its key in this country |
| Alerts.Synced | app.py:973-1023 | the table after a committed sync: other countries' rows are kept, this country's rows are exactly the fetched ids |
| Alerts.SyncedIds | app.py:982-1015 | after a sync the country's stored ids are exactly the fetched ids, each holding the fetched status and relationship as their TEXT columns store them |
| Alerts.SyncedColumnTable | app.py:982-1015 | a committed sync keeps every stored field text or None and every stored id within 64 bits |
| Alerts.SyncedOthers | app.py:976-1013 | rows of other countries are untouched |
| Alerts.SyncedStamps | app.py:982-1015 | a new id gets first and last seen `now`; a changed id keeps first seen and gets the stored new fields and last seen `now`; an unchanged id is not rewritten even when its name differs |
| Alerts.SyncedTextFields | app.py:1010-1015 | a fetched text status and relationship are stored as they are, so the stored row no longer differs from them |
| Alerts.SyncedAgainOk | app.py:1010-1016 | with text statuses and relationships, a second sync of the same fetch finds nothing changed and does not raise |
| Alerts.SyncIdempotent | app.py:982-1022 | with text statuses and relationships, syncing the same fetch again at any later time commits and leaves the table as it is |
| Alerts.SecondSyncRaises | app.py:1010-1016 | a truthy status that is not text is stored as text, so syncing the same fetch again finds it changed and the closing test raises: the second sync never commits |
| Alerts.SecondSyncRealerts | app.py:1010-1022 | a closing text status with a relationship that is not text is found changed on every sync, and alerts as closed again |
| Alerts.InsertedAt | app.py:982-989 | the first loop inserts exactly the fetched ids the snapshot lacks, with both times `now`, and keeps every stored row |
| Alerts.VisitedAt | app.py:999-1015 | the second loop over distinct ids deletes the vanished ids, rewrites the changed ones and touches no other row |
| Alerts.VisitStepAt | app.py:1000-1015 | one visit changes only the row of its own id |
| Alerts.SyncLoops | app.py:981-1022 | the two loops together, visiting every stored id once in any order, leave the table `Synced` describes |
| Alerts.SyncOkIff | app.py:982-1022 | the section commits exactly when no fetched id makes the first loop raise (the id or a field cannot be bound, an int beyond 64 bits included) and no stored id makes the second loop raise |
| Alerts.NewRowsShape | app.py:982-995 | one `new` row exactly when the id is fetched, not stored, the id and its fields bind (64-bit ints only) and the kind is allowed; none otherwise |
| Alerts.ChangeRowsShape | app.py:999-1022 | at most one row, for a stored id of this country; a row exactly when the id vanished and `removed` is allowed, or it changed, its fields bind (64-bit ints only), it passes the closing test and `closed` is allowed; `removed` exactly for a vanished id |
| Alerts.SyncLog | app.py:981-1022 | the loops, appending one id at a time, append the new rows in fetch order followed by the removed and closed rows in visit order |
| Alerts.SyncRowsExplained | app.py:983-1017 | every alert of a sync is new, removed or closed for this country, allowed by its toggles, and explained by the diff |
| Alerts.SecondSyncIsQuiet | app.py:982-1022 | with text statuses and relationships, a second sync of the same fetch logs no new, removed or closed alert, whatever the visit order |
| Alerts.Enumerate | app.py:979 | the stored ids listed once each, in some order |
| Alerts.ProgrammeStore.constructor | app.py:131 | the store starts with empty tables and an empty throttle |
| Alerts.ProgrammeStore.LogAlert | app.py:933-941 | appends exactly the row `LogRowOf` describes and changes nothing else |
| Alerts.ProgrammeStore.FeedFailure | app.py:948-959 | appends `FeedFailureRows`, sets the throttle to `FeedStateAfter`, and leaves the programmes table untouched |
| Alerts.ProgrammeStore.SyncAndAlert | app.py:944-1023 | a raising fetch takes the feed-failure path and touches no programme; a fetch whose entries raise changes nothing; otherwise the section commits exactly when `SyncOk` holds, leaving the table `Synced` and the log grown by `SyncRows`, and a raise leaves the table as it was with the log grown by a prefix of `SyncRows` |
| Alerts.ProgrammeStore.Sync | app.py:973-1023 | the locked section commits exactly when `SyncOk` holds, leaving the table `Synced` and appending `SyncRows` after visiting every stored id once; a raise restores the table, and the rows logged before it begin `SyncRows` |
| Alerts.ProgrammeStore.InsertNew | app.py:982-995 | the first loop raises exactly when some new fetched id fails the bind of its id or fields, an int beyond 64 bits included; otherwise its table is `Inserted` and its log grows by the new rows in fetch order; a raise leaves a prefix of those rows |
| Alerts.ProgrammeStore.InsertOne | app.py:983-995 | one fetched id inserted and alerted as the loop body does; it raises with the first bind error (OverflowError for an id beyond 64 bits), logging nothing, exactly when `InsertFails` |
| Alerts.ProgrammeStore.VisitStored | app.py:999-1022 | the second loop raises exactly when some changed stored id fails the bind of its fields (an int beyond 64 bits included) or its closing test; otherwise its table is `Visited` and its log grows by the removed and closed rows in visit order; a raise leaves a prefix of those rows |
| Alerts.ProgrammeStore.VisitOne | app.py:1000-1022 | one stored id deleted, or rewritten and alerted, as the loop body does; it raises, logging nothing, exactly when `VisitFails` |
| Locking.LogCalls | app.py:935-941 | `n` calls make 2n lock steps, n acquires and n releases, starting with an acquire |
| Locking.SyncLockTrace | app.py:973-1023 | a sync with n alerts makes 2n+2 lock steps, starting with the section's acquire and ending with its release |
| Locking.SyncDeadlocksIffAlerts | app.py:933-973 | on the non-reentrant lock as written, a sync finishes exactly when it logs no alert |
| Locking.LogCallsBalanced | app.py:935-941 | balanced `log_alert` blocks leave a reentrant lock as they found it |
| Locking.ReentrantSyncCompletes | app.py:933-973 | on a reentrant thread lock every sync finishes and leaves the lock free, however many alerts it logs; sqlite's own lock is not part of this |
| Locking.DeferredSyncLockTrace | app.py:973-1023 | a sync that logs its n alerts after the section makes 2n+2 lock steps, the section's acquire and release first |
| Locking.PlainLogCallsComplete | app.py:935-941 | `log_alert` blocks taken one after another on a free plain lock all finish and leave it free |
| Locking.DeferredSyncCompletes | app.py:933-973 | with the alerts logged after the section, every sync finishes on the plain lock as written and leaves it free |
| Locking.FirstSyncAlerts | app.py:982-995 | the first sync of a country with new-programme alerts on logs an alert for the first fetched id, when it and its fields bind |
| Locking.FirstSyncDeadlocks | app.py:973-995 | as written, that first sync never finishes, when the first fetched id and its fields bind |
| Batching.SortedIds | job.py:269 | the ids in strictly increasing order, each allowed id exactly once |
| Batching.ChunksFlatten | job.py:284-286 | the batches, concatenated, are the ids in order |
| Batching.ChunksSized | job.py:284-286 | no batch is empty, none exceeds fifty, and all but the last are full |
| Batching.IdBatches | job.py:284-289 | the batches concatenate to the sorted ids, each holds one to fifty ids, and there are none exactly when no id is allowed |
| Numbers.ToNumIsFloat | job.py:104-106 | on numbers `to_num` is `float()` |
| Numbers.ToFloatAgreesWithToNum | job.py:511-516 | Impact's `to_float` agrees with `to_num` except on dicts, where it gives 0.0 |
| Numbers.ToNumIgnoresCommas | job.py:107-111 | thousands separators never change a parsed amount |
| Numbers.ToNumAmount | job.py:112-115 | `{"amount": w}` converts as `w` does |
| Numbers.ToNumUnwraps | job.py:112-115 | however deeply an amount is wrapped in `{"amount": ...}`, `to_num` reaches it |
| Numbers.ToNum | job.py:104-116 | None, lists, unparsable text and dicts without amount, value or val give 0.0 instead of raising; `ToNumIsFloat`, `ToNumIgnoresCommas`, `ToNumAmount` and `ToNumUnwraps` state the other cases |
| Numbers.FxRate | job.py:119-132 | 1.0 when a code is empty or both agree ignoring case; any other rate comes from an answered lookup |
| Numbers.FxRateFallbacks | job.py:122-132 | a failed lookup, a reply that is not an object, a missing, null or zero `result`, a list or object `result` and an unparsable text all give 1.0; a non-zero int or float is used as is, whatever its sign; `True` gives 1.0; a text that parses is used even when it is zero |
| Numbers.FxRateNeedsNoLookup | job.py:120-121 | with a code missing or both equal, the lookup is never consulted |
| Numbers.SetDefault | job.py:153-154 | `setdefault` keeps a present key and adds an absent one, touching no other key |
| Numbers.NormalizeMetrics | job.py:145-155 | the method's result is `Normalized(m)` |
| Numbers.Normalized | job.py:145-155 | the result always holds the three commission keys, `raw` and `meta`, and every key of a dict argument; `NormalizedShape` states their values |
| Numbers.NormalizedShape | job.py:145-155 | the result always holds the three commission keys as floats coerced from the old values, keeps `raw`/`meta` when present and adds them when absent, and leaves every other key as it was |
| Numbers.NormalizeIdempotent | job.py:145-155 | normalising a normalised dict changes nothing |
| Numbers.NormalizeKeepsMetrics | job.py:632-635 | every aggregator's result passes through the normaliser unchanged |
| Numbers.NormalizeNonDict | app.py:1405-1412 | a non-dict becomes blank metrics in job.py, and blank totals keeping a list as `raw` in app.py |
| Commissions.TallyAppend | job.py:332-344 | bucket sums add up over concatenated rows |
| Commissions.TallySkips | job.py:341-344 | a row outside a bucket contributes nothing to it |
| Commissions.TallyPartition | job.py:341-344 | the confirmed, pending and ignored sums make up the sum of all amounts |
| Commissions.TallyAllIgnored | job.py:341-344 | rows all outside the vocabulary sum to zero |
| Commissions.ConvertedTotal | job.py:346-349 | `total_comm` is the converted confirmed plus the converted pending amount |
| Commissions.TxRequests | job.py:269-296 | always at least one request: one unfiltered request when no id is allowed, else one per batch of sorted ids |
| Commissions.TxRequestsCoverAllowed | job.py:269-289 | the requests ask for every allowed id exactly once, in ascending order, at most fifty per request |
| Commissions.AwinTxAmount | job.py:335-340 | the first non-zero of `to_num` of commissionAmount, commission and publisherCommission, in that order; 0.0 when all three are zero |
| Commissions.AwinTxEntry | job.py:334-344 | a transaction's amount is `AwinTxAmount`; it is confirmed exactly when its lower-cased status is "approved", pending exactly when it is "pending", and otherwise, or when the status is not text, in neither bucket |
| Commissions.AwinTxEntries | job.py:333-344 | one entry per transaction row, in order, each with that row's amount, confirmed exactly when the row is approved and pending exactly when it is pending |
| Commissions.StatusFiltered | job.py:320-322 | without a status filter every row is kept; with one, a row is kept exactly when it is in the input and `str(status).lower()` equals the lower-cased filter, and never more rows than the input |
| Commissions.AwinLastCurrencyWins | job.py:324-327 | among the first three kept rows, the last one carrying a currency decides |
| Commissions.AwinCurrencyDefault | job.py:324-327 | with no probed row carrying a currency the source currency is EUR |
| Commissions.ProbeAwinValue | job.py:325-326 | the probe loop's value is the chain over the first three rows |
| Commissions.ProbeAwinCurrency | job.py:324-327 | the probe loop gives `AwinCurrency` of the rows |
| Commissions.AwinSelected | job.py:300-322 | the filters never add rows: `rows_after_filter` is at most `rows_total` |
| Commissions.FirstStatusError | job.py:333-334 | no error exactly when every kept row's status is text or falsy; otherwise the AttributeError `.lower()` raises on some such row's status, naming its type |
| Commissions.AwinTransactions | job.py:244-352 | a window over 30 days raises with no request; otherwise the requests go out in batches until one fails; on success the metrics are the converted bucket sums of the filtered rows |
| Commissions.FetchTransactions | job.py:274-296 | the requests go out in order, stopping at the first failure, which is the one reported; the rows of all requests on success |
| Commissions.FetchAllFirstError | job.py:287-291 | the failure reported is the first failing request's |
| Commissions.FetchAllErrKeeps | job.py:287-291 | once a request fails nothing later matters |
| Commissions.FetchAllStops | job.py:287-291 | a failing request fails the whole fetch |
| Commissions.ConvertEntries | job.py:332-349 | the accumulation loop returns the converted metrics of its entries |
| Commissions.ReportTotalFallback | job.py:227-228 | the report total is the totalComm sum unless that is zero, and then the bucket sum |
| Commissions.ReportTotalConsistent | job.py:222-228 | when each row's totalComm is its confirmed plus pending, the total is the bucket sum |
| Commissions.AwinEarnings | job.py:184-242 | a failed report raises; otherwise the three columns are summed with `to_num`, the total falls back to the bucket sum, and all are converted from the probed currency |
| Commissions.SumReport | job.py:222-226 | the loop returns the sums of the three report columns |
| Commissions.AddrevAmount | job.py:410-419 | a non-zero amount was parsed from a non-null amount field once its commas were removed |
| Commissions.AddrevAmountFirstParsed | job.py:410-419 | the first amount field that is not null and parses gives the amount, even when it parses as zero |
| Commissions.AddrevAmountNoneParsed | job.py:410-419 | when no amount field is set and parses, the amount is 0.0 |
| Commissions.AddrevBucket | job.py:425-428 | approved/confirmed/paid are confirmed, pending/awaiting pending, anything else ignored |
| Commissions.AddrevEntries | job.py:421-428 | one bucketed entry per transaction row |
| Commissions.GuardedRate | job.py:408 | the rate is 1.0 whenever the codes are equal |
| Commissions.AddrevAggregate | job.py:398-436 | a failed request raises; otherwise the sub-id-filtered rows are bucketed and converted from the first row's currency |
| Commissions.HasNextIsOrChain | job.py:483 | `HasNext` is the truthiness of the next-page chain |
| Commissions.ImpactPagesRequested | job.py:476-488 | between one request and the pages left up to ten |
| Commissions.PageNumbers | job.py:474-486 | the page numbers 1 to n in order |
| Commissions.FetchImpactPages | job.py:476-488 | the paging loop's result is `ImpactPaged` from page 1, having requested pages 1, 2, ... in turn, at least one and at most ten |
| Commissions.ImpactPageFails | job.py:478 | a failing request ends the paging as that failure |
| Commissions.ImpactPageLast | job.py:483-488 | the paging ends on a page without a next link or on page ten |
| Commissions.ImpactPageNext | job.py:486-488 | otherwise it goes on with the next page |
| Commissions.ImpactPageUnfold | job.py:477-488 | one step of the paging specification |
| Commissions.ImpactPagingStops | job.py:476-488 | at most ten requests; a successful run ends without a next link or on page ten |
| Commissions.ImpactPagedFromPages | job.py:479-482 | a successful paging starts with the first page's actions |
| Commissions.ImpactBucket | job.py:532-535 | APPROVED is confirmed, PENDING pending, any other state ignored |
| Commissions.ImpactEntries | job.py:529-535 | one bucketed entry per action |
| Commissions.FirstCurrency | job.py:518-523 | the default when no row carries a truthy Currency |
| Commissions.FirstCurrencyWins | job.py:518-523 | the earliest probed action with a Currency decides |
| Commissions.ImpactNotConfigured | app.py:352-359 | zero totals and no rows |
| Commissions.ImpactAggregate | job.py:464-543 | no request without credentials; otherwise the paged actions are sub-id filtered, converted from the first-seen currency and bucketed by state |
| Commissions.ProbeImpactCurrency | job.py:518-523 | the loop gives `ImpactCurrency` of the kept actions |
| Commissions.PartnerizeStub | job.py:547-555 | zero totals, no rows, and the not-implemented reason in `meta` |
| SubIds.SubIdValues | job.py:308 | at most one value per key, and none exactly when no sub-id field is truthy |
| SubIds.Wanted | job.py:300 | at most one prepared filter per entry |
| SubIds.WantedOne | job.py:300 | a blank entry gives nothing; any other gives one non-blank filter |
| SubIds.WantedNonBlank | job.py:300 | no prepared filter is blank |
| SubIds.WantedEmptyIff | job.py:300-317 | the prepared list is empty, switching the filter off, exactly when every entry is blank |
| SubIds.AllBlankWantsNothing | job.py:300 | all-blank entries prepare nothing |
| SubIds.NonBlankIsWanted | job.py:300 | a non-blank entry prepares at least one filter |
| SubIds.LowerAll | job.py:312 | each value lower-cased, in order |
| SubIds.FilterRows | job.py:319 | every row when no filter is left; otherwise exactly the rows the match accepts, never more than there were |
| SubIds.RowWithoutSubIdsDropped | job.py:309-310 | a row with no sub-id field never passes a non-empty filter |
| SubIds.LowerJoin | job.py:393 | lower-casing the joined text is joining the lower-cased values |
| SubIds.JoinedFoundInValue | job.py:393-394 | a filter without the separator that is found in the joined text is found in one value |
| SubIds.ValueFoundInJoined | job.py:503-504 | a filter found in one value is found in the joined text |
| SubIds.JoinedSearchIsPerValue | job.py:503-504 | for a filter without the separator, the joined search and the per-value search agree |
| SubIds.ContainsModesAgree | job.py:300-317 | the Addrevenue and Impact contains modes agree with AWIN's when no filter holds the separator |
| SubIds.ContainsModesDiffer | job.py:393-394 | the two matching modes can differ: the Addrevenue match on the joined text finds a filter that spans the separator, while the AWIN per-value match does not |
| EarningsJob.Settle | job.py:593-639 | one metrics dict per network |
| EarningsJob.RunJob | job.py:585-643 | four networks, an error message of at most 500 characters, status ok exactly when no network raised, and grand totals that are the sums of the four; `RunJobErr` states the message |
| EarningsJob.RunJobErr | job.py:637-639 | after a raise the status is error and `err` is `str(e)[:500]` of the first raise: its message without the class |
| EarningsJob.RunJobNoErr | job.py:586-643 | without a raise the status is ok and `err` is empty |
| EarningsJob.WindowTooWideReported | job.py:256 | a window over 31 days writes the ValueError's bare message |
| EarningsJob.SumsOfFour | job.py:641-643 | the grand totals are the sums of the four networks' fields |
| EarningsJob.SettleError | job.py:637-639 | an error is reported exactly when some network raised |
| EarningsJob.SettleFirstRaise | job.py:593-639 | the first raise blanks its network and every later one and is the error reported; earlier networks keep theirs |
| EarningsJob.SettleNoRaise | job.py:593-635 | without a raise every network keeps its metrics |
| EarningsJob.GrandTotalIsSum | job.py:641-643 | when each network's total is confirmed plus pending, so is the grand total |
| EarningsJob.FirstRaiseExists | job.py:593-639 | when some network raised, there is a first one that did |
| EarningsJob.NormalizePassIsIdentity | job.py:631-635 | the normalisation pass leaves the aggregators' results unchanged |
| Market.Norm | app.py:761 | the normalised spelling holds no space |
| Market.NoMarketShowsAll | app.py:746-747 | without a market every campaign is shown |
| Market.ShownShipsThere | app.py:760-773 | a shown campaign has a region that names the market or an alias |
| Market.NoRegionsHidden | app.py:750-773 | a campaign with no shipping regions is never shown for a market |
| Market.CampaignMatchesMarket | app.py:744-802 | every campaign matches when no market is selected; only a shipping-regions value that is not iterable raises; a match for a market ships to it, and its primary region, when it has one, names the market |
| Market.PrimaryRegionDecides | app.py:776-795 | a shipping campaign with a primary region is shown exactly when that region names the market |
| Market.PrimaryRegionOverridesCurrency | app.py:789-795 | changing the currency of a campaign with a primary region changes nothing |
| Market.PolicyIgnoresCurrency | app.py:789-795 | the policy body never reads the currency when there is a primary region |
| Market.UnmappedMarketAccepts | app.py:798-800 | without a primary region, a shipping campaign is shown for a market with no currency mapping |
| Market.CurrencyDecides | app.py:802 | otherwise it is shown exactly when its currency is one the market expects |
| Market.UkGbTables | app.py:721-740 | UK and GB have the same normalised aliases and both expect GBP |
| Market.UkIsGb | app.py:744-802 | every campaign gets the same answer for UK and for GB |
| Market.MarketCode | app.py:706 | the market code has no small letter and no whitespace at either end |
| Market.MarketCodePadded | app.py:706 | whitespace around the selected country does not change the market |
| Market.MarketCodeIgnoresCase | app.py:706 | the selected country in lower or upper case gives the same market |
| Market.MarketCodeIdempotent | app.py:706 | a market code, selected again, gives itself |
| UrlMaps.Merge | app.py:660-663 | an empty batch leaves the map; otherwise only the batch's key is added or changed |
| UrlMaps.MergeHolds | app.py:660-663 | after a merge a URL is listed under a key exactly when it was before or the batch for that key carries it |
| UrlMaps.MergeKeeps | app.py:660-663 | a merge keeps every list non-empty and duplicate-free, with each old list a prefix of its new one |
| UrlMaps.MergeAllHolds | app.py:632-663 | a URL is listed under a key exactly when some batch for that key carried it |
| UrlMaps.MergeAllOne | app.py:660-663 | merging one batch is one merge |
| UrlMaps.MergeFirstNew | app.py:660-663 | a batch's first new URL lands right after the key's old list |
| UrlMaps.MergeAllKeeps | app.py:632-663 | merging keeps the map well formed and never reorders or drops a URL a key already had |
| UrlMaps.MergeAllConcat | app.py:626-670 | merging `bs` and then `cs` is merging `bs + cs` |
| UrlMaps.AppendMissing | app.py:661-663 | the loop appends each URL the list does not hold yet, in order |
| UrlMaps.MergeInto | app.py:660-663 | `setdefault` and the append loop are the merge of one batch |
| Feeds.NonBlankTexts | app.py:1666 | at most one URL per candidate field |
| Feeds.ItemsUrl | app.py:640-642 | at most one URL, on the Impact API host |
| Feeds.CatalogBatch | app.py:632-658 | at most one batch per catalogue |
| Feeds.ImpactCatalogFeedsByCampaign | app.py:612-672 | empty when Impact is not configured, the paging failure when a request fails, else the map over every page's catalogues in order |
| Feeds.AddCatalog | app.py:632-663 | the loop body merges one catalogue's batch |
| Feeds.CatalogFeedsWellFormed | app.py:651-663 | no campaign's list is empty or repeats a URL |
| Feeds.CatalogFeedsFrom | app.py:632-663 | every listed URL comes from a catalogue of that campaign |
| Feeds.CatalogBatchFrom | app.py:637-655 | a batch's URLs are the catalogue's items URL and locations |
| Feeds.CatalogFeedsHold | app.py:632-663 | every catalogue's URLs are listed under its campaign |
| Feeds.ItemsUrlFirst | app.py:639-649 | a new items URL lands ahead of every location the catalogue adds |
| Feeds.AddrevFeedBatch | app.py:1651-1675 | at most one batch per row that passes |
| Feeds.AddrevProductFeedsByAdv | app.py:1640-1681 | empty without a channel id; the request's failure; else the map over the rows in order |
| Feeds.MergeBatch | app.py:1675-1680 | merging a row's at most one batch |
| Feeds.AddrevFeedsWellFormed | app.py:1675-1680 | no advertiser's list is empty or repeats a URL |
| Feeds.CampaignLink | app.py:1700-1701 | a link picked from a campaign row is never empty |
| Feeds.TrackingEntry | app.py:1695-1703 | an entry's link is never empty |
| Feeds.AddrevCampaignTrackingByAdv | app.py:1684-1704 | empty without a channel id; the failure; else the first link per advertiser |
| Feeds.TrackingLinkPresent | app.py:1694-1703 | an advertiser has a link exactly when some campaign row gives one |
| Feeds.TrackingFirstWins | app.py:1703 | the first row with a link for an advertiser gives it; later rows never replace it |
| Feeds.PickFeedUrlEmpty | app.py:1603-1624 | the picker returns "" exactly when none of the advertiser's feeds has a URL |
| Feeds.PickFeedUrlFromFeeds | app.py:1603-1624 | any URL returned is the stripped URL of one of the advertiser's feeds |
| Feeds.PickFeedUrlPrefersCountry | app.py:1610-1618 | the first URL among feeds in the requested country is picked |
| Feeds.PickFeedUrlFallsBack | app.py:1619-1623 | without such a URL, the first URL among all feeds is picked |
| Feeds.AddrevPickFeedUrl | app.py:1603-1624 | an advertiser without feeds gets ""; the picker raises only with the error of one of its feeds whose `url` is set but not text |
| Feeds.FirstHttpLink | app.py:1631-1635 | the picked text is empty or starts with http:// or https:// |
| Feeds.FirstHttpLinkNone | app.py:1631-1635 | no link is picked when no field holds an http(s) link |
| Feeds.FirstHttpLinkFound | app.py:1631-1635 | one is picked whenever some field holds one |
| Feeds.FirstHttpLinkIsFirst | app.py:1631-1634 | the pick is the first field, in key order, holding an http(s) link |
| Feeds.AddrevPickTrackingLink | app.py:1626-1635 | the link is empty or starts with http:// or https://, and a link picked is the stripped text of one of the six tracking keys holding an http(s) link |
| Feeds.FindBestFeedForAdv | app.py:1285-1292 | any pick is a feed of the advertiser |
| Feeds.FindBestFeedPrefersRegion | app.py:1289-1292 | nothing is picked exactly when the advertiser has no feed; when one of its feeds is in the region, so is the pick |
| Feeds.FindBestFeedFirstInRegion | app.py:1288-1292 | the advertiser's first feed in the requested region is the one picked |
| Feeds.FindBestFeedFallsBack | app.py:1291-1292 | without a feed in the region, the advertiser's first feed is picked |
| Feeds.FirstLabel | app.py:1712-1722 | the label is never empty |
| Feeds.FirstLabelNone | app.py:1712-1722 | "None" when no key's value is set and not blank |
| Feeds.FirstLabelIsFirst | app.py:1712-1721 | otherwise the stripped text of the first such key |
| Feeds.RelationshipStr | app.py:1707-1722 | the relationship label is never empty; any label but "None" is the stripped text of a relationship key whose value is set and not blank |
| Partnerize.PagesRequested | app.py:2031-2119 | at least one and at most twenty requests |
| Partnerize.PagesBeforeLastAreFull | app.py:2115-2117 | the loop goes past a page only when it came back full |
| Partnerize.PagedReachesFailure | app.py:2039-2042 | a failed request on a reached page ends the loop as a failure |
| Partnerize.PagedAll | app.py:2051-2112 | a property of every handled row holds of everything paged in |
| Partnerize.PagedFails | app.py:2039-2042 | the loop's step on a failed request |
| Partnerize.PagedEmpty | app.py:2048-2049 | the loop's step on an empty page |
| Partnerize.PagedRaises | app.py:2051-2112 | the loop's step on a page whose rows raise |
| Partnerize.PagedLast | app.py:2115-2119 | the loop's step on a short page or the twentieth |
| Partnerize.PagedNext | app.py:2117 | the loop's step onto the next page |
| Partnerize.PagedAdvance | app.py:2031-2119 | the paging invariant carried onto the next page |
| Partnerize.HandleRows | app.py:2051-2112 | the rows of one page handled in order, failing at the first raising row |
| Partnerize.FetchPaged | app.py:2027-2119 | the loop's result is `PagedFrom` page 1, with its request count |
| Partnerize.PagedFrom | app.py:2031-2119 | the paging ends as a failed request only on a page from the first one on whose request failed, with its error, and as a raise only on such a page whose rows raised, with their error |
| Partnerize.UpperTexts | app.py:2097 | the upper-cased text of each value, in order |
| Partnerize.PromoList | app.py:2093-2099 | no country code holds a small letter |
| Partnerize.KeyValues | app.py:2095 | each key as a text value |
| Partnerize.StrippedText | app.py:2053-2057 | `str(v).strip()` has no space at either end |
| Partnerize.Trimmed | app.py:2057 | a stripped text is blank or clean |
| Partnerize.Lowered | app.py:2061 | a lowered text has no capital letter |
| Partnerize.LowerText | app.py:2061 | the normalised status has no capital letter |
| Partnerize.UpperText | app.py:2062-2066 | the normalised currency has no small letter |
| Partnerize.Build | app.py:2101-2112 | the record keeps the id, and is well normalised when the id is clean |
| Partnerize.Record | app.py:2101-2112 | exactly one well-normalised record, under its id |
| Partnerize.FieldsWellNormalized | app.py:2101-2112 | the record's invariant follows from its fields |
| Partnerize.Title | app.py:2075-2079 | the title is always set |
| Partnerize.V3Row | app.py:2051-2112 | a row without an id is skipped; one with an id passes exactly when its campaign info is an object; at most one well-normalised record under its id |
| Partnerize.V1Row | app.py:2139-2201 | an item passes exactly when its inner campaign is an object, is then skipped exactly when it has no id, and gives at most one well-normalised record under its id |
| Partnerize.PartnerizeParticipations | app.py:1997-2207 | the loop and fallback give `Participations` |
| Partnerize.Participations | app.py:2101-2201 | every participation returned is well normalised, whichever API it came from; `V3FailureFallsBack` and `ShortV3PageIsUsed` state when the fallback is used |
| Partnerize.V1Participations | app.py:2127-2207 | a failed v1 request or a raising item gives no participations; every one returned is well normalised |
| Partnerize.V3FailureFallsBack | app.py:2121-2126 | a failed v3 request on any page the loop reaches throws away the records already paged in; the result is the v1 fallback |
| Partnerize.ShortV3PageIsUsed | app.py:2115-2126 | a short first v3 page with records ends the loop, and its records are the result whatever the v1 endpoint or later pages return |
| Partnerize.PromoKeys | app.py:2094-2095 | a country object's keys become its upper-cased codes |
| Partnerize.UpperKeys | app.py:2095 | upper-casing keys as text values upper-cases the keys |
| Partnerize.FeedUrl | app.py:2278-2281 | at most one URL, non-blank and stripped |
| Partnerize.FeedUrls | app.py:2270-2281 | every URL is non-blank and stripped |
| Partnerize.FeedBatch | app.py:2256-2284 | at most one batch, whose URLs are non-blank and stripped |
| Partnerize.CampaignUrls | app.py:2266-2281 | every URL of a campaign's feeds is non-blank and stripped |
| Partnerize.MergeFeedRows | app.py:2254-2284 | merging one page's campaigns in order |
| Partnerize.PartnerizeFeedsByCampaign | app.py:2210-2294 | the loop's result is `FeedsByCampaign` |
| Partnerize.FeedPage | app.py:2234-2292 | one request either ends the loop or grows the map by this page's campaigns |
| Partnerize.FeedsByCampaign | app.py:2210-2294 | the feed map has no campaign with an empty list or a URL twice; `FeedsClean` and `FeedFetchFailureDiscards` state its URLs and its failure |
| Partnerize.FeedsClean | app.py:2258-2284 | every listed URL is non-blank and stripped, under a non-blank id |
| Partnerize.FeedFetchFailureDiscards | app.py:2239-2244 | a failed request on any page the loop reaches makes the result the empty map, whatever earlier pages held |
| PyValue.Get | app.py:964 | a missing key reads as None |
| PyValue.OrElseIsOr | app.py:964 | the two-operand `or` is the one-step chain |
| PyValue.OrIsFirstTruthy | app.py:964 | an `or` chain is its first truthy operand, else its last |
| PyValue.IntText | app.py:967 | `str()` of an int is never empty |
| PyValue.PyInt | app.py:967 | `int()` of an int is itself, and raises on None, lists and objects |
| PyValue.Strip | app.py:1719 | no whitespace at either end, and no longer than the input |
| PyValue.Lower | app.py:1016 | each character lower-cased, in place |
| PyValue.Upper | app.py:789 | each character upper-cased, in place |
| PyValue.RemoveChar | app.py:761 | the character no longer occurs, and the result is no longer than the input |
| PyValue.LowerIsLower | app.py:1016 | a lowered text has no capital letter |
| PyValue.UpperIsUpper | app.py:789 | an upper-cased text has no small letter |
| PyValue.StripLeftPadded | app.py:706 | leading whitespace is ignored by `lstrip` |
| PyValue.StripRightPadded | app.py:706 | trailing whitespace is ignored by `rstrip` |
| PyValue.StripLeftAppend | app.py:706 | `lstrip` of a concatenation drops an all-whitespace left part, else keeps the right part whole |
| PyValue.StripPadded | app.py:706 | whitespace around a text does not change its `strip` |
| PyValue.StripTwice | app.py:706 | `strip` is idempotent |
| PyValue.StripLower | app.py:1016 | lower-casing commutes with `strip` |
| PyValue.UpperOfLower | app.py:706 | upper-casing after lower-casing is upper-casing |
| PyValue.LowerOfUpper | app.py:1016 | lower-casing after upper-casing is lower-casing |
| PyValue.UpperTwice | app.py:706 | upper-casing is idempotent |
| PyValue.Truncate | app.py:939 | `s[:n]` is the whole text up to n characters, else exactly its first n |
| PyValue.ExceptionStr | job.py:639 | `str(e)` is a suffix of the raise's text |
| PyValue.ExceptionStrOf | job.py:639 | `str()` of `Class: message` is exactly the message |
| PyValue.ExceptionStrPlain | job.py:639 | a text without a class prefix is its own `str` |
| Commissions.WindowErrorStr | job.py:256 | the window error's `str` is its message, within 500 characters |
| PyValue.AppendAllKeeps | app.py:661-663 | appending the missing elements keeps the old list as a prefix, adds only batch elements, and leaves no duplicate |
| PyValue.AppendAllConcat | app.py:661-663 | appending two batches in turn is appending their concatenation |
| PyValue.AppendAllPresent | app.py:661-663 | appending elements already present changes nothing |
| Searches.Filter | job.py:319 | no longer than the input; an element is kept exactly when it is in the input and accepted |
| Searches.FilterFirst | app.py:1289-1292 | the first accepted element heads the filtered list |
| Searches.FilterTwiceFirst | app.py:1288-1292 | the first element accepted by two tests heads the list filtered by one and then the other |
| Searches.FilterNone | app.py:1612-1613 | nothing is kept when no element is accepted |
| Searches.FirstTextEmpty | app.py:1620-1624 | the search finds "" exactly when every element's text is "" |
| Searches.FirstTextFrom | app.py:1620-1623 | a non-empty text found is some element's |
| Searches.FirstTextErr | app.py:1616 | a failing search fails with the error of an element whose text fails |
| Searches.FirstTextAt | app.py:1620-1623 | the first element with a non-empty text gives the result |
| Searches.FirstTextFiltered | app.py:1612-1618 | searching the accepted elements finds the first accepted one with a non-empty text |
| Searches.FlattenOntoAppends | app.py:981-1022 | appending one element's rows at a time appends their concatenation |
| Searches.FlattenNone | app.py:981-1022 | nothing is appended when no element produces a row |
| Searches.FlattenHolds | app.py:632-663 | an item is in the concatenation exactly when some element produced it |
| Searches.FlattenResultErrKeeps | app.py:2051-2112 | once a prefix fails, the whole sequence fails the same way |
| Searches.FlattenResultAll | app.py:2051-2112 | a property of every per-element result holds of the whole |
| Searches.SetDefaultsKeys | app.py:1703 | a key is set exactly when some element has an entry for it |
| Searches.SetDefaultsFirstWins | app.py:1703 | the first element with an entry for a key gives its value |

## Left out

- HTTP: every request to AWIN, Addrevenue, Impact, Partnerize and the
  exchange-rate service is a parameter returning `Result`. The
  response-envelope handling is not modelled: lists versus `{"rows": ...}`
  or `{"results": ...}`, and a dict standing for a single row. Each fetch
  yields rows, or for Impact a page of items with its next-page links.
- SMTP: `Alerts.SendEmail` keeps the two guard returns of `send_email`.
  The session's outcome is passed in via `Mailer`. Subject and body text
  are not modelled.
- The sqlite connection, pragmas and commit: the tables are fields of
  `ProgrammeStore`. The SQL of `SELECT`, `INSERT OR REPLACE`, `UPDATE` and
  `DELETE` is stated as map updates.
- Row order of `cur.fetchall()`: sqlite does not fix it.
  `Alerts.Enumerate` chooses some order, and every property is proved for
  all orders.
- Timestamps: one clock reading `now` stands for both `utcnow()` calls of
  a sync, and for the feed-failure throttle's `ts`. ISO text is not
  modelled.
- Dict key order: objects are maps. The order of an object's keys, which
  Partnerize's `promotional_countries` can expose, is a parameter
  `keysOf`.
- Threads: `DB_LOCK` is modelled only as far as the finding below needs.
  Concurrent syncs are not modelled. Each sync is one step over the
  store.
- Floating point: amounts are reals. `float()`/`int()` parsing of text and
  the text of `str()` on floats and containers are the `Builtins`
  parameters. Case mapping covers ASCII letters only.
- Streamlit rendering, caching decorators, the warmup block, the
  `_render_country` search section, Google Sheets I/O, `uuid`, the job's
  date window and environment parsing. Toggles and settings are
  parameters.
- `load_awin_feed_rows`, `feed_url_from_row`, `awin_cread_link`,
  `addrev_feeds_by_advertiser` and `advertiser_ids_for_countries`.
  `find_best_feed_for_adv` takes their `_adv_id`/`_region` rows as given.
- `partnerize_debug.py` and `warmup.py`: these are not part of this model.
- The second definitions of `impact_list_programs` and
  `render_impact_merchants_simple`, and the unreachable code after
  app.py:2540.
- The exchange-rate fallback: the code returns 1.0 only for a missing,
  null or zero `result`. A negative rate is returned as it is. The model
  follows the code.
- Partnerize.FetchPaged: returns the number of requests rather than the
  list of page numbers requested.
- Commissions.FetchImpactPages: the pages it reports are the numbers
  1..n computed from the request count. They are not collected one by one.
- Commissions.AwinTransactions: `meta` is the one job.py:351 builds. The
  app.py copy (app.py:1233-1245) also reports `used_api`, `window`,
  `date_type`, `status_filter`, `clickrefs_used` and `contains_match`. It
  names the filtered count `rows_after_clickref`.
- Commissions.AwinTransactions: without advertiser ids, the app.py copy
  also sends `publisherIds` (app.py:1146). The request's parameters are not
  modelled.
- Commissions.AwinEarnings: `meta` is the one job.py:241 builds. The app.py
  copy (app.py:1108-1117) also reports `used_api`, `regions_sent`, `window`
  and `clickrefs_used`.
- Commissions.AddrevAggregate: `meta` is the one job.py:435 builds. The
  app.py copy (app.py:287-293) reports `window` and `channelId` instead of
  `row_count`.
- Commissions.ImpactAggregate: `meta` is the one job.py:542 builds. The
  app.py copy (app.py:455-465) also reports `window`, `subrefs_used`,
  `contains_match` and `used_api`.
- PyValue.Strip: `IsSpace` is the ASCII whitespace only. Python's
  `str.strip` also removes `\x1c`-`\x1f`, `\x85`, `\xa0` and the other
  Unicode whitespace. Every lemma about stripping, such as
  `Market.MarketCodePadded`, speaks of the ASCII whitespace only.
- Error texts: inside the model a raise is `Err` with the text
  `Class: message`, the exception's class and Python's message, built from the type name of the offending value
  (`PyValue.MethodError`, `NotIterableError`, `IntError`). The text that
  `int()` quotes is written between plain single quotes, without the
  escapes of Python's `repr`. The sqlite3 bind error leaves out the
  parameter's position. The error texts a fetch gives (`fetch`
  parameters) are taken to follow the same form. The class stays only
  inside the model: `main` writes `str(e)` (job.py:639), which
  `EarningsJob.RunJob` models with `PyValue.ExceptionStr` by dropping the
  class.
- Alerts.ProgrammeStore.Sync: a raise inside the section leaves
  `programmes` as it was, as sqlite discards an uncommitted transaction.
  The alerts logged before it stay. `log_alert` opens its own
  connection (app.py:936-940) while the section's connection holds an
  uncommitted write. Even past the thread lock, sqlite would make that
  insert wait out the 5000 ms busy timeout (app.py:139) and then raise
  `OperationalError: database is locked`. The model does not include that
  raise. Only the `threading.Lock` is modelled, in `locking.dfy`;
  sqlite's own database lock is not.
- Alerts.VisitFails: the `UPDATE` and `DELETE` of the second loop also
  bind the stored id (app.py:1001-1014). The model does not test its
  range there: a stored id came out of the INTEGER column, so it is
  within 64 bits, as the table's invariant `Alerts.ColumnTable` records.
- Alerts.Changed: Python's `!=` between a fetched value and a stored one
  is modelled as inequality of `Value`s. The two agree because a stored
  value is always text or None, which the table's invariant
  `Alerts.ColumnTable` records.
- Sub-id filtering in app.py: the AWIN and Addrevenue copies build their
  filter lists as job.py does, and the app.py Impact copy is the same as
  job.py's. One model serves all of them.

## Findings

| source | as written | input that shows it | evidently intended | confidence | as-written member | corrected member |
|---|---|---|---|---|---|---|
| app.py:933-973 | `sync_and_alert` holds `DB_LOCK` (defined at app.py:133 as a non-reentrant `threading.Lock`) across both diff loops. `log_alert`, called inside them, takes the same lock again. The first alert of a successful sync therefore blocks its own thread forever. | the first sync of a country whose fetch lists one programme with a 64-bit id and text fields, with alerts and new-programme alerts on | every sync with alerts finishes: the alerts are logged after the section commits and releases the lock. A reentrant lock alone (`Locking.ReentrantSyncCompletes`) frees the thread lock, but `log_alert`'s own connection (app.py:936-940) would then wait on sqlite's lock for the busy timeout (app.py:139) and raise "database is locked" | not executed | Locking.FirstSyncDeadlocks | Locking.DeferredSyncCompletes |
