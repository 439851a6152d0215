# Verified model of hyperswitch routing helpers, payment sync, HiPay transformers and the organization store

This Dafny project models four pieces of the hyperswitch payment router and proves what each promises.

- **Routing validation and routing configuration** (`crates/router/src/core/routing/helpers.rs`).
  - `RoutingValidation` checks every leaf connector choice of a routing algorithm (single, priority, volume split, advanced program) against the connector accounts of one business profile. A choice pinned to an account id needs the `(name, id)` pair; an unpinned choice needs the name only. The first failing leaf decides the error.
  - `RoutingConfig` holds the key functions and a `RoutingStore` class. The class keeps the config key-value store, the merchant accounts and business profiles, and a log of writes and cache-invalidation publishes. It implements get-or-create of the default connector list, the whole-value overwrites, and the two "write the active routing reference, then publish invalidation" operations. The default-list keys `routing_default_{merchant}` and `routing_default_po_{merchant}` (helpers.rs:425-434) keep one merchant's payment and payout lists apart. Across merchants they collide: the payment list of merchant `po_x` is stored under the same key as the payout list of merchant `x`, so each would read and overwrite the other's list (`PaymentAndPayoutKeysOverlapAcrossMerchants`). The model keeps the key format as written; whether such a pair of merchant ids can exist is decided by id generation, which is not part of this model.
- **Payment status-sync job** (`crates/router/src/workflows/payment_sync.rs`).
  - `PaymentSync` has the retry-schedule mapping with its fall-back to the default, the terminal-status test, and the last-retry escalation.
  - The class `PaymentsSyncWorkflow` runs one job execution. It holds the payment attempt and intent, the tracker requests and the webhook deliveries. Its method is proved equal to the pure specification `Run`.
- **HiPay connector transformers** (`crates/hyperswitch_connectors/src/connectors/hipay/transformers.rs`). `Hipay` covers:
  - the status codes and their mapping onto canonical attempt and refund statuses;
  - the payments, token and maintenance request builders;
  - authentication;
  - shaping of the authorize, capture/cancel, refund and sync replies.
- **In-memory organization store** (`crates/router/src/db/organization.rs`, the `MockDb` implementation). `OrganizationStore.MockDb` keeps a sequence of organizations and offers insert, find and update. Its update returns the new record but does not store it; see Findings.

`Common` holds what these share: `Option`, `Result`, `Outcome`, the canonical status enums, and the decimal rendering of unsigned integers.

## Model

| member | source | states |
|---|---|---|
| Common.NatToString | crates/hyperswitch_connectors/src/connectors/hipay/transformers.rs:599 | decimal rendering of a number: non-empty, digits only, no leading zero, one digit exactly below 10 |
| Common.ParseNatToString | crates/hyperswitch_connectors/src/connectors/hipay/transformers.rs:599 | reading back the rendered digits gives the number (round trip) |
| Common.NatToStringInjective | crates/hyperswitch_connectors/src/connectors/hipay/transformers.rs:599 | distinct numbers render as distinct strings |
| RoutingValidation.ErrorMessageIdentifiesChoice | crates/router/src/core/routing/helpers.rs:342-367 | the rejection message `ErrorMessage` builds (the two formats of the source) identifies the choice: with quote-free connector names and account ids, equal messages come from the same connector and the same account id (or none) |
| RoutingValidation.CheckChoice | crates/router/src/core/routing/helpers.rs:342-367 | a pinned choice passes iff its `(name, id)` pair is known; an unpinned one passes iff its name is known; a failure names that choice |
| RoutingValidation.CheckChoices | crates/router/src/core/routing/helpers.rs:374-378 | a list passes iff every element passes; a failure is the error of the first failing element |
| RoutingValidation.CheckSplits | crates/router/src/core/routing/helpers.rs:380-384 | a volume-split list fails only with a connector-not-found error |
| RoutingValidation.CheckSelection | crates/router/src/core/routing/helpers.rs:387-404 | both selection kinds fail only with a connector-not-found error |
| RoutingValidation.CheckRules | crates/router/src/core/routing/helpers.rs:408-410 | the rules fail only with a connector-not-found error |
| RoutingValidation.ValidateConnectorsInRoutingConfig | crates/router/src/core/routing/helpers.rs:310-415 | a failed account fetch gives the account-not-found error for the merchant; every other rejection is connector-not-found |
| RoutingValidation.SplitConnectors | crates/router/src/core/routing/helpers.rs:380-384 | the connectors of a split list, one per split, in order |
| RoutingValidation.CheckChoiceMatchesAccounts | crates/router/src/core/routing/helpers.rs:330-367 | a choice passes against the two sets built from the accounts iff an account of the profile backs it |
| RoutingValidation.CheckChoicesAppend | crates/router/src/core/routing/helpers.rs:374-378 | checking a concatenation is checking the first part, then (if it passes) the second |
| RoutingValidation.CheckSplitsIgnoresWeights | crates/router/src/core/routing/helpers.rs:380-384 | a split list is checked exactly as the list of its connectors; weights are never read |
| RoutingValidation.CheckSelectionIsLeafCheck | crates/router/src/core/routing/helpers.rs:387-404 | a selection is checked as the in-order list of its leaves |
| RoutingValidation.CheckRulesIsLeafCheck | crates/router/src/core/routing/helpers.rs:406-410 | the rules are checked as the concatenation of their leaves, in rule order |
| RoutingValidation.ValidateChecksLeavesInOrder | crates/router/src/core/routing/helpers.rs:369-414 | validation equals checking the flattened leaves in document order, the default selection first |
| RoutingValidation.ValidateAcceptsIffAllLeavesBacked | crates/router/src/core/routing/helpers.rs:369-414 | validation accepts iff every leaf is backed by an account of the profile |
| RoutingValidation.ValidateNamesFirstUnbackedLeaf | crates/router/src/core/routing/helpers.rs:369-414 | a rejection names the first unbacked leaf, and all leaves before it are backed |
| RoutingValidation.ValidateNamesTheOnlyUnbackedLeaf | crates/router/src/core/routing/helpers.rs:386-411 | with exactly one unbacked leaf anywhere in the tree, validation fails naming that leaf |
| RoutingValidation.ValidateIgnoresOtherProfiles | crates/router/src/core/routing/helpers.rs:330-340 | an account of another profile (or of none) never changes the verdict |
| RoutingValidation.PinnedChoiceNeedsItsAccount | crates/router/src/core/routing/helpers.rs:343-353 | an account of the same connector with another id satisfies an unpinned choice but not a pinned one |
| RoutingConfig.RoutingDictionaryKey | crates/router/src/core/routing/helpers.rs:419-421 | the merchant's routing-dictionary key is `routing_dict_{merchant_id}` |
| RoutingConfig.DefaultConfigKey | crates/router/src/core/routing/helpers.rs:425-434 | the default-list key is `routing_default_{merchant_id}` for payments and `routing_default_po_{merchant_id}` for payouts |
| RoutingConfig.RoutingCacheKey | crates/router/src/core/routing/helpers.rs:258-259 | the cache entry of a profile's routing is `routing_config_{merchant_id}_{profile_id}` |
| RoutingConfig.RoutingDictionaryKeyInjective | crates/router/src/core/routing/helpers.rs:419-421 | distinct merchants get distinct dictionary keys |
| RoutingConfig.DefaultConfigKeyInjective | crates/router/src/core/routing/helpers.rs:425-434 | for one transaction type, distinct merchants get distinct default-config keys |
| RoutingConfig.PaymentAndPayoutKeysDiffer | crates/router/src/core/routing/helpers.rs:425-434 | a merchant's payment and payout default keys never collide |
| RoutingConfig.PaymentAndPayoutKeysOverlapAcrossMerchants | crates/router/src/core/routing/helpers.rs:425-434 | the payment key of merchant `po_x` equals the payout key of merchant `x` |
| RoutingConfig.DictionaryAndDefaultKeysDisjoint | crates/router/src/core/routing/helpers.rs:419-434 | no dictionary key equals any default-config key |
| RoutingConfig.RoutingStore.GetMerchantDefaultConfig | crates/router/src/core/routing/helpers.rs:73-115 | get-or-create: a stored list is returned (an unparsable one is an error); a missing key gets an empty list inserted and returned; a read, encode or insert failure writes nothing |
| RoutingConfig.RoutingStore.UpdateConfigByKey | crates/router/src/core/routing/helpers.rs:135-138 | whole-value overwrite of an existing row, logged; on failure nothing changes |
| RoutingConfig.RoutingStore.UpdateMerchantDefaultConfig | crates/router/src/core/routing/helpers.rs:119-141 | serialise, then overwrite the default list under its key; each failure step has its own error and leaves the state unchanged |
| RoutingConfig.RoutingStore.UpdateMerchantRoutingDictionary | crates/router/src/core/routing/helpers.rs:143-164 | the whole dictionary replaces the stored one (no merge) |
| RoutingConfig.RoutingStore.UpdateRoutingAlgorithm | crates/router/src/core/routing/helpers.rs:166-186 | the algorithm is overwritten under its own id |
| RoutingConfig.RoutingStore.UpdateMerchantActiveAlgorithmRef | crates/router/src/core/routing/helpers.rs:190-240 | only the merchant's payment routing reference changes; the publish is logged only after the update; a publish failure is an error with the write kept |
| RoutingConfig.RoutingStore.UpdateBusinessProfileActiveAlgorithmRef | crates/router/src/core/routing/helpers.rs:242-308 | exactly one of the payment or payout references is set, by transaction type; then `routing_config_{merchant}_{profile}` is published; a publish failure is an error with the write kept |
| RoutingConfig.ApplyProfileUpdate | crates/router/src/core/routing/helpers.rs:265-296 | a profile update changes only the columns it carries a value for |
| RoutingConfig.GetOrCreateTwice | crates/router/src/core/routing/helpers.rs:82-114 | two reads of a missing default list both return the empty list; one insert is made |
| PaymentSync.PtMappingKey | crates/router/src/workflows/payment_sync.rs:259-260 | a connector's retry mapping is stored under `pt_mapping_{connector}` |
| PaymentSync.LookupPtMapping | crates/router/src/workflows/payment_sync.rs:259-267 | a failed read is an error; otherwise the row under `pt_mapping_{connector}` if present, else not found |
| PaymentSync.DefaultPtMapping | crates/router/src/workflows/payment_sync.rs:272 | the fallback mapping: no per-merchant entries, first sync after 60 s, then five syncs 300 s apart, cap 5 (values assumed, see Left out) |
| PaymentSync.TerminalStatuses | crates/router/src/workflows/payment_sync.rs:100-108 | the seven statuses after which syncing stops: router-declined, charged, auto-refunded, voided, void-failed, capture-failed, failure |
| PaymentSync.IsTerminal | crates/router/src/workflows/payment_sync.rs:109-110 | an attempt status is terminal iff it is one of `TerminalStatuses` |
| PaymentSync.ShouldEscalate | crates/router/src/workflows/payment_sync.rs:132-141 | escalate iff this is the last retry, the attempt is pending and no connector transaction id was recorded |
| PaymentSync.ResolvePtMapping | crates/router/src/workflows/payment_sync.rs:256-274 | a stored mapping that parses is used; a missing, unreadable or unparsable one gives the default |
| PaymentSync.BucketDelayPicksBucket | crates/router/src/workflows/payment_sync.rs:245-249 | the bucket walk returns the interval of the first bucket whose cumulative count reaches the retry, and nothing past the last bucket |
| PaymentSync.ScheduleDelay | crates/router/src/workflows/payment_sync.rs:275 | no delay beyond the retry cap; the first run waits `start_after` of the merchant's own mapping, or of the default mapping for a merchant without one |
| PaymentSync.TimeFromDelta | crates/router/src/workflows/payment_sync.rs:277 | a time exists iff a delay does, and it is now plus the delay |
| PaymentSync.SyncProcessScheduleTime | crates/router/src/workflows/payment_sync.rs:250-278 | never an error: without a usable stored mapping the time comes from the default mapping |
| PaymentSync.DefaultScheduleTime | crates/router/src/workflows/payment_sync.rs:311-335 | with the default mapping, retry 0 waits `start_after` and retry 1 waits the first bucket's interval |
| PaymentSync.SingleBucketSchedule | crates/router/src/workflows/payment_sync.rs:233-249 | one bucket `(interval, count)`: retries 1 to the count (and the cap) wait the interval; later ones get nothing |
| PaymentSync.TimedOutAttempt | crates/router/src/workflows/payment_sync.rs:143-161 | the escalated attempt is `Failure` with the timeout reason and nothing capturable; id, connector and transaction id unchanged |
| PaymentSync.FailedIntent | crates/router/src/workflows/payment_sync.rs:142 | the escalated intent is `Failed` with incremental authorization off |
| PaymentSync.EscalateRun | crates/router/src/workflows/payment_sync.rs:163-214 | escalation succeeds iff both updates succeed, the intent has a profile id and the profile is found; then exactly one webhook is attempted |
| PaymentSync.Run | crates/router/src/workflows/payment_sync.rs:100-218 | terminal status: finish as completed (`COMPLETED_BY_PT`) and return success, or the tracker error with no request; nothing else changes; no connector: error before scheduling; otherwise the tracker is asked for sync `retry_count + 1` — a schedule time reschedules the job and changes nothing else, none finishes it as exhausted; a tracker failure changes nothing; attempt and intent change only by escalation on the last retry of a pending attempt without a transaction id |
| PaymentSync.WebhookOutcomeIsIgnored | crates/router/src/workflows/payment_sync.rs:202-218 | a failed webhook changes neither the result, nor the tracker requests, nor the stored attempt and intent |
| PaymentSync.LastPendingRetryEscalates | crates/router/src/workflows/payment_sync.rs:132-215 | last retry, pending, no transaction id: finish as exhausted, attempt `Failure`, intent `Failed`, one webhook attempted |
| PaymentSync.PaymentsSyncWorkflow.RetrySyncTask | crates/router/src/workflows/payment_sync.rs:280-304 | asks for retry `retry_count + 1`; reschedules and returns false, or finishes as exhausted and returns true |
| PaymentSync.PaymentsSyncWorkflow.ExecuteWorkflow | crates/router/src/workflows/payment_sync.rs:40-219 | an inquiry failure changes nothing; otherwise the result and new state are those of `Run` |
| Hipay.OperationName | crates/hyperswitch_connectors/src/connectors/hipay/transformers.rs:52-60 | lower-case wire name of an operation |
| Hipay.OperationNameInjective | crates/hyperswitch_connectors/src/connectors/hipay/transformers.rs:52-60 | distinct operations have distinct wire names |
| Hipay.PaymentStatusCode | crates/hyperswitch_connectors/src/connectors/hipay/transformers.rs:461-528 | every status code lies between 101 and 200 |
| Hipay.PaymentStatusFromCode | crates/hyperswitch_connectors/src/connectors/hipay/transformers.rs:463-498 | deserialisation of a status code: each serde code gives its status and every other code is rejected; `PaymentStatusCodeRoundTrip` states it inverts `PaymentStatusCode` |
| Hipay.PaymentStatusCodeRoundTrip | crates/hyperswitch_connectors/src/connectors/hipay/transformers.rs:461-528 | decoding a status's code gives the status, and only its own code decodes to it |
| Hipay.ToAttemptStatus | crates/hyperswitch_connectors/src/connectors/hipay/transformers.rs:529-567 | total; `Failure` iff one of the eight refusal statuses, `Charged` iff captured/collected/settled (five statuses), `CaptureFailed` iff capture refused |
| Hipay.GetSyncStatus | crates/hyperswitch_connectors/src/connectors/hipay/transformers.rs:674-710 | `Charged` iff 18 or 20-23; `Failure` iff a listed failure code or any unlisted code |
| Hipay.SyncStatusAgreesWithPaymentStatus | crates/hyperswitch_connectors/src/connectors/hipay/transformers.rs:674-710 | the sync table and the status mapping agree on every status |
| Hipay.RefundStatusCode | crates/hyperswitch_connectors/src/connectors/hipay/transformers.rs:441-448 | refund statuses travel as 124, 125, 126 or 165 |
| Hipay.ToRefundStatus | crates/hyperswitch_connectors/src/connectors/hipay/transformers.rs:452-460 | requested is pending, refunded and partially refunded are success, refused is failure |
| Hipay.RSyncRefundStatus | crates/hyperswitch_connectors/src/connectors/hipay/transformers.rs:600-605 | 25 and 26 are success, 65 failure, every other code pending |
| Hipay.RSyncAgreesWithRefundStatus | crates/hyperswitch_connectors/src/connectors/hipay/transformers.rs:440-460 | the refund-sync table agrees with the refund mapping on every refund status |
| Hipay.BrandProduct | crates/hyperswitch_connectors/src/connectors/hipay/transformers.rs:189-194 | a product exists iff the brand is one of the six in the table |
| Hipay.NetworkProduct | crates/hyperswitch_connectors/src/connectors/hipay/transformers.rs:195-212 | empty product iff no network or one of Star, Accel, Pulse, Nyce |
| Hipay.PaymentProduct | crates/hyperswitch_connectors/src/connectors/hipay/transformers.rs:187-213 | domestic network first, then a known brand, then the card's network |
| Hipay.BrandAndNetworkTablesAgree | crates/hyperswitch_connectors/src/connectors/hipay/transformers.rs:187-212 | where both tables know a network, they give the same product |
| Hipay.BrowserInfoFrom | crates/hyperswitch_connectors/src/connectors/hipay/transformers.rs:122-137 | accept header is always `*/*`; every other field is copied |
| Hipay.CardToken | crates/hyperswitch_connectors/src/connectors/hipay/transformers.rs:173-184 | a plain token is returned as is; Apple Pay, Paze and Google Pay decrypt tokens each give the unimplemented-for-HiPay error naming that wallet |
| Hipay.ThreeDsData | crates/hyperswitch_connectors/src/connectors/hipay/transformers.rs:225-246 | billing address, then e-mail (billing, else request; with both failing, the request's error), then browser info; the first failure wins; Ok iff all three are available, copying every address field, the e-mail and the browser info |
| Hipay.BuildPaymentsRequest | crates/hyperswitch_connectors/src/connectors/hipay/transformers.rs:147-251 | non-card is not implemented; errors in field order (capture method, token getter, wallet token, then the 3-D Secure block), each the exact error raised; `Sale` iff auto-capture; indicator 2 iff 3-D Secure, else 0; under 3-D Secure the block is exactly `ThreeDsData`, else none; the product is chosen from the stored domestic network, the stored brand and the card network; default description; all five URLs are the return URL |
| Hipay.ExpiryYearFourDigit | crates/hyperswitch_connectors/src/connectors/hipay/transformers.rs:259 | a two-digit year becomes 20xx; any other is kept |
| Hipay.BuildTokenRequest | crates/hyperswitch_connectors/src/connectors/hipay/transformers.rs:252-269 | succeeds iff card data and a billing name; copies the card fields with a four-digit year |
| Hipay.TokenResponse | crates/hyperswitch_connectors/src/connectors/hipay/transformers.rs:277-312 | the token is the response; the brand and domestic network are kept as card data |
| Hipay.TokenReplyDecidesProduct | crates/hyperswitch_connectors/src/connectors/hipay/transformers.rs:151-163 | the token reply's domestic network, else its known brand, else the card network, becomes the authorize request's product |
| Hipay.HipayAuthTypeFrom | crates/hyperswitch_connectors/src/connectors/hipay/transformers.rs:319-330 | succeeds iff the auth type is a body key, copying both keys; otherwise fails to obtain the auth type |
| Hipay.RefundRequest | crates/hyperswitch_connectors/src/connectors/hipay/transformers.rs:408-417 | refund with the amount and currency present |
| Hipay.CaptureRequest | crates/hyperswitch_connectors/src/connectors/hipay/transformers.rs:429-438 | capture with the amount and currency present |
| Hipay.CancelRequest | crates/hyperswitch_connectors/src/connectors/hipay/transformers.rs:418-428 | cancel without an amount, with the request's optional currency |
| Hipay.AuthorizeResponse | crates/hyperswitch_connectors/src/connectors/hipay/transformers.rs:352-406 | error iff the mapped status is `Failure`, carrying the placeholder code and the transaction reference; otherwise the reference as id, with a redirect iff 3-D Secure |
| Hipay.MaintenanceResponse | crates/hyperswitch_connectors/src/connectors/hipay/transformers.rs:612-661 | capture and cancel replies: mapped status, reference as id, never an error response |
| Hipay.RefundExecuteResponse | crates/hyperswitch_connectors/src/connectors/hipay/transformers.rs:575-590 | the reference is the refund id; the status is mapped |
| Hipay.RefundSyncResponseData | crates/hyperswitch_connectors/src/connectors/hipay/transformers.rs:592-610 | the numeric id is rendered in decimal, reading back to the same id; the numeric status is mapped |
| Hipay.RefundSyncIdsDistinct | crates/hyperswitch_connectors/src/connectors/hipay/transformers.rs:599 | distinct numeric refund ids give distinct refund ids |
| Hipay.SyncResponse | crates/hyperswitch_connectors/src/connectors/hipay/transformers.rs:712-778 | an error object is `Failure` with its code in decimal; a state is mapped; error iff `Failure`, with the reason's code and text or the placeholders; otherwise no response id |
| Hipay.SyncErrorCodeIsNumericOrPlaceholder | crates/hyperswitch_connectors/src/connectors/hipay/transformers.rs:719-746 | a sync error code is either all digits or the placeholder, never both |
| OrganizationStore.FirstIndex | crates/router/src/db/organization.rs:101-104 | the position of the first record with the id, or none iff no record has it |
| OrganizationStore.FirstIndexOfUnique | crates/router/src/db/organization.rs:99-111 | with unique ids, the record found is the only one with the id |
| OrganizationStore.ApplyUpdate | crates/router/src/db/organization.rs:124-134 | name, details and metadata from the update; id and both timestamps from the stored record |
| OrganizationStore.MockDb.InsertOrganization | crates/router/src/db/organization.rs:68-93 | a present id gives `DuplicateValue("org_id", None)` and no change; otherwise exactly the new record, stamped now, is appended and returned; unique ids stay unique |
| OrganizationStore.MockDb.FindOrganizationByOrgId | crates/router/src/db/organization.rs:95-112 | the first record with the id, or `ValueNotFound`; the list is not changed |
| OrganizationStore.MockDb.UpdateOrganizationByOrgId | crates/router/src/db/organization.rs:114-143 | missing id gives `ValueNotFound`; otherwise returns the updated first match; the list is not changed |
| OrganizationStore.MockDb.UpdateOrganizationByOrgIdPersisted | crates/router/src/db/organization.rs:114-143 | as the update, but the returned record replaces the first match in the list; unique ids stay unique |
| OrganizationStore.UpdateThenFindAsWritten | crates/router/src/db/organization.rs:114-143 | after the update, a find still returns the record as it was before |
| OrganizationStore.LostRenameExample | crates/router/src/db/organization.rs:114-143 | renaming `org_1` from "old" to "new" and reading it back gives "old" |
| OrganizationStore.UpdateThenFindPersisted | crates/router/src/db/organization.rs:114-143 | with the corrected update, a find returns exactly the updated record |
| OrganizationStore.InsertThenFind | crates/router/src/db/organization.rs:68-112 | a newly inserted organization is found as inserted |

## Left out

- The Postgres-backed `impl OrganizationInterface for Store` (organization.rs:28-64) is connection plumbing and is not modelled.
- `connector/bitpay.rs` is not modelled.
- The commented-out `get_merchant_routing_dictionary` (helpers.rs:26-69) is dead code and is not modelled.
- The v2 `execute_workflow` (payment_sync.rs:31-38) is `todo!()` and is not modelled.
- `MockDb` locking, async execution and at-least-once job redelivery are not modelled; every operation is sequential.
- JSON encoding and parsing is not modelled as text. A stored value is a tagged `ConfigValue` or `StoredPtMapping`. Encode, read, write and publish failures are boolean fault inputs.
- Storage and cache calls are not modelled; they are map updates on the store plus entries in an effect log.
- Wall-clock time is an integer parameter (`now`), not a `PrimitiveDateTime`.
- Integer widths (`i32` retry counts, `u8`/`u16`/`u64`/`u32` codes) are not modelled; numbers are unbounded.
- Secrets, `IpAddr`, card numbers and `StringMajorUnit` amounts are plain strings.
- RoutingValidation.ValidateConnectorsInRoutingConfig: the connector-account fetch is an input. It is called with the flag `true` (helpers.rs:319-324), whose filtering happens in a store that is not part of this model, so the model filters only by profile.
- RoutingConfig.RoutingStore.UpdateConfigByKey: overwriting a missing key is modelled as a failure. The storage layer that decides this is not part of this model.
- RoutingConfig.RoutingStore.UpdateMerchantActiveAlgorithmRef: the merchant is addressed by id, and the other merchant columns are not modelled.
- PaymentSync.ScheduleDelay: `get_schedule_time` and `get_time_from_delta` are not part of this model. The model assumes no delay past `max_retries_count`, `start_after` for retry 0, then the walk over the frequency buckets. Only retries 0 and 1 under the default mapping are fixed by the test at payment_sync.rs:311-335.
- PaymentSync.PaymentsSyncWorkflow.ExecuteWorkflow: `payments_operation_core` is an input. The status inquiry and the earlier reads of tracking data, key store and merchant account are all folded into that one input.
- PaymentSync.PaymentsSyncWorkflow.ExecuteWorkflow: `retry_process`, `finish_process_with_business_status` and `trigger_payments_webhook` are recorded requests with fault inputs.
- PaymentSync.PaymentsSyncWorkflow.ExecuteWorkflow: the retry and finish calls share one tracker-fault flag.
- PaymentSync.EscalateRun: every failed attempt or intent update gives `PaymentNotFound`, and every failed profile lookup gives `ProfileNotFound`. In the source `to_not_found_response` (payment_sync.rs:170, 181, 198) gives those errors only for a not-found database error, and an internal server error for any other; the model does not tell the two kinds of database failure apart.
- PaymentSync.DefaultPtMapping: the values of `ConnectorPTMapping::default()` are not part of this model. The model assumes first sync after 60 s, then five syncs 300 s apart, with a cap of 5, as in the `pt_mapping_trustpay` example at payment_sync.rs:231-249. No lemma depends on these numbers; `DefaultScheduleTime` is stated over the default's own fields.
- `error_handler` / `consumer_error_handler` (payment_sync.rs:221-228) is a foreign call and is not modelled.
- Hipay.AuthorizeResponse: the texts of `NO_ERROR_CODE` and `NO_ERROR_MESSAGE` come from `hyperswitch_interfaces::consts`, which is not part of this model. The model uses "No error code" and "No error message".
- Hipay.AuthorizeResponse: fields the transformers copy unchanged from the incoming router data (`..item.data`) are not modelled; each reply gives only the new status and response.
- Hipay.CardToken: the message built by `unimplemented_payment_method!` is not part of this model; the error keeps the macro's two arguments.
- Hipay.BuildTokenRequest: `get_unimplemented_payment_method_error_message` is not part of this model; the error keeps the connector name.
- Hipay.BuildPaymentsRequest: the router-data getters (`is_auto_capture`, `get_payment_method_token`, `get_billing_address`, the e-mail getters, `get_browser_info`, `get_billing_full_name`) are inputs that may already hold an error.
- Hipay.ExpiryYearFourDigit: `get_expiry_year_4_digit` is not part of this model. A two-digit year is read as 20xx.
- Hipay.SyncResponse: the serde untagged try-order between the two reply shapes is not modelled; the reply arrives already decoded.
- OrganizationStore.MockDb.InsertOrganization: the source reads the clock twice, once for `created_at` and once for `modified_at`; the model stamps both with the single time `now`, so it does not capture the two differing.
- OrganizationStore.MockDb.FindOrganizationByOrgId: the `ValueNotFound` message renders the id with `Debug` formatting. The model keeps only the id.

## Findings

| source | as written | input that shows it | evidently intended | confidence | as-written member | corrected member |
|---|---|---|---|---|---|---|
| crates/router/src/db/organization.rs:121-135 | `update_organization_by_org_id` finds the record through `iter_mut()`, builds the updated copy from `org.to_owned()`, and returns it without assigning it back, so the stored list never changes | store holding `org_1` named "old"; update it to name "new"; find `org_1` returns the name "old" | the updated record replaces the stored one, so a later find returns what the update returned | medium, not executed | OrganizationStore.UpdateThenFindAsWritten, OrganizationStore.LostRenameExample | OrganizationStore.MockDb.UpdateOrganizationByOrgIdPersisted, OrganizationStore.UpdateThenFindPersisted |
