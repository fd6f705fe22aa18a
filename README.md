# ProAvalon Patreon linking, rewards, avatars, metrics and configuration — a Dafny model

This project models the parts of the ProAvalon game server that decide who is a paying
Patreon supporter and what that earns them. It also covers a few small utilities that
keep state or check input. It has ten modules.

- `PatreonTypes` (`patreon_types.dfy`) holds what the linking agents share:
  - the stored link record: Patreon id, lower-cased username, OAuth tokens, amount in cents and pledge expiry;
  - the record collection, a map keyed by username;
  - the "has paid" rule: the last charge succeeded, strictly within thirty days;
  - JavaScript's coercion of a `null` date to the epoch in a comparison, and of a date string that has not been parsed to NaN, which fails every comparison;
  - the two uniqueness constraints on the collection: one record per username, and one username per Patreon account.
- `PatreonLinking` (`patreon_agent.dfy`) is the account-linking agent `PatreonAgent` of
  `src/clients/patreon/patreonAgent.ts`.
  - It is a class over the record map.
  - `LinkUserToPatreon` exchanges the code, fetches the identity and enforces both cardinality rules. It then updates or creates a member's record, or rotates a non-member's tokens.
  - Every link keeps the uniqueness constraints.
- `PatreonRefresh` (`patreon_refresh.dfy`) is the controller-injected agent that
  `src/clients/patreon/tests/PatreonAgent.test.ts` specifies.
  - Linking rejects an unpaid patron.
  - Reading a user's details serves a fresh record from the store. When the record has expired, the agent refreshes the tokens and re-fetches the paid details, then saves the record or deletes it.
  - Every call to the controller is logged, as the test's mocks record them.
- `LegacyPatreon` (`legacy_patreon_agent.dfy`) is the older agent of `src/rewards/patreonAgent.ts`, modelled as written. Its quirks are stated as lemmas:
  - the activeness test is inverted;
  - a member's answer compares the clock with the next charge date while it is still Patreon's string, which never compares as earlier or later;
  - the update and create branches give opposite answers;
  - there is no check that the Patreon account is unused by another username.
- `Rewards` (`rewards.dfy`) is `src/rewards/getRewards.ts`:
  - Patreon rewards by pledge amount;
  - other rewards by role and games played;
  - the two collecting loops, proved against a filter over the reward table.
- `UserAvatars` (`user_avatars.dfy`) covers the avatar operations of `MongoUserAdapter` in `src/databaseAdapters/user.ts`:
  - setting the links;
  - the bounded avatar library, whose push-then-shift loop is proved to keep the newest entries;
  - removal.
- `MetricLabels` (`metric_labels.dfy`) covers label-combination generation and validation as the metric tests state them:
  - generation is the cartesian product, first label varying slowest, with the product of the set sizes as its count;
  - a label map is valid exactly when it is generated.
- `PromGauge` (`prom_metric_gauge.dfy`) is the gauge wrapper.
  - Its constructor checks the label options, registers the name and builds the client gauge.
  - `set` checks the labels and forwards the value.
- `ConfigUtils` (`config_utils.dfy`) has the required-environment-variable checks of
  `src/config/utils.ts` and the environment check of `src/config/config.ts`.
- `Common` (`common.dfy`) holds `Option` and `Result`.

Calls to Patreon become function-valued parameters (`getTokens`, `getPatronDetails`,
the `Controller` functions). Because of that, a contract can say which token each call
received. The clock is the integer parameter `now`, in milliseconds. A `null` date is
`None`.

## Model

| member | source | states |
|---|---|---|
| `PatreonTypes.ExpiryInstant` | src/clients/patreon/patreonAgent.ts:182-184 | a stored expiry compares as its own instant, and a missing one as the epoch |
| `PatreonTypes.PledgeExpiry` | src/clients/patreon/patreonAgent.ts:113-122 | the recorded expiry is the next charge date exactly when the last charge is "Paid" and less than thirty days old; otherwise there is none |
| `PatreonTypes.HasExpired` | src/clients/patreon/patreonAgent.ts:182-184 | a stored expiry has expired exactly when it lies before now; a missing one exactly when now is after the epoch |
| `PatreonTypes.UnparsedExpiryBefore` | src/clients/patreon/patreonAgent.ts:120-121 | a next charge date still in Patreon's string form never compares as before now; a missing one does exactly when now is after the epoch |
| `PatreonTypes.UnparsedPastDateIsNotBefore` | src/clients/patreon/patreonAgent.ts:147 | a past next charge date has expired once stored, but does not compare as past while unparsed |
| `PatreonTypes.HasPaid` | src/clients/patreon/patreonAgent.ts:113-119 | paid only with status "Paid", and then exactly when the last charge is less than thirty days old |
| `PatreonTypes.ChargeThirtyDaysOldIsUnpaid` | src/clients/patreon/patreonAgent.ts:114-119 | the thirty-day window is strict: a charge exactly thirty days old does not count as paid |
| `PatreonTypes.MissingExpiryHasExpired` | src/clients/patreon/patreonAgent.ts:182-184 | a record without an expiry reads as expired at every instant after the epoch |
| `PatreonTypes.FindOneByPatreonId` | src/clients/patreon/patreonAgent.ts:62-64 | finds nothing exactly when no record holds the Patreon id; otherwise returns a stored record that holds it |
| `PatreonTypes.FoundHolderIsUnique` | src/clients/patreon/patreonAgent.ts:61-72 | in a store that keeps the uniqueness constraints, the found holder belongs to another username exactly when some other username holds the id |
| `PatreonLinking.ExistingPatreonDetails` | src/clients/patreon/patreonAgent.ts:17-33 | nothing exactly when the username has no record; otherwise the stored amount, active exactly when the expiry is not before now |
| `PatreonLinking.MemberResult` | src/clients/patreon/patreonAgent.ts:146-149 | a member's link answers the entitled amount; active whenever the member has paid and has a next charge date, whatever that date, because the date is compared unparsed; inactive after the epoch when there is no expiry |
| `PatreonLinking.MemberLinkReadsBack` | src/clients/patreon/patreonAgent.ts:124-149 | reading a username back after a member's link gives the link's amount, and the link's whole answer exactly unless the member has paid and the next charge date is already past |
| `PatreonLinking.NonMemberFirstLinkReadsBack` | src/clients/patreon/patreonAgent.ts:168-179 | after a non-member's first link, a read gives inactive and zero, as the link did |
| `PatreonLinking.NonMemberRelinkKeepsStoredPledge` | src/clients/patreon/patreonAgent.ts:158-166 | a non-member re-link keeps the stored amount and expiry, so a later read can report active although the link answered inactive |
| `PatreonLinking.PatreonAgent.constructor` | src/clients/patreon/patreonAgent.ts:10-11 | the agent works over the existing record collection, which keeps the uniqueness constraints |
| `PatreonLinking.PatreonAgent.LinkUserToPatreon` | src/clients/patreon/patreonAgent.ts:36-99 | gives the error for a second Patreon account exactly when the username holds another id, and the error for a used account exactly when another username holds the id; errors leave the store unchanged; gives the exact new store and answer for the member, non-member re-link and non-member first-link branches; never touches other usernames and keeps the uniqueness constraints |
| `PatreonLinking.PatreonAgent.UpdateCurrentPatreonMember` | src/clients/patreon/patreonAgent.ts:101-150 | writes tokens, entitled amount and resolved expiry under the username, whether the record is updated or created, and answers as `MemberResult` states |
| `PatreonLinking.PatreonAgent.UpdateCurrentNonPatreonMember` | src/clients/patreon/patreonAgent.ts:152-180 | an existing record gets only its tokens replaced; a missing one is created with amount 0 and no expiry; the answer is inactive with 0 |
| `PatreonRefresh.RefreshedRecord` | src/clients/patreon/tests/PatreonAgent.test.ts:271-316 | a refresh that is still paid keeps the record's Patreon id and username, with the new tokens, amount and expiry |
| `PatreonRefresh.PatreonAgent.constructor` | src/clients/patreon/tests/PatreonAgent.test.ts:29-37 | the agent is built with the injected controller and an empty call log |
| `PatreonRefresh.PatreonAgent.LinkUserToPatreon` | src/clients/patreon/tests/PatreonAgent.test.ts:76-218 | calls the token exchange with the code, then the paid-details fetch with the new access token; fails as not paid exactly when there are no paid details, and otherwise on each cardinality rule exactly when it is broken, with the store unchanged; on success it upserts the paid record and answers active with the paid amount |
| `PatreonRefresh.PatreonAgent.UpdateCurrentPaidPatreonMember` | src/clients/patreon/tests/PatreonAgent.test.ts:118-123 | writes the paid record under the username and answers active with the paid amount |
| `PatreonRefresh.PatreonAgent.UpdateUserTokens` | src/clients/patreon/tests/PatreonAgent.test.ts:367-370 | replaces only the tokens of the username's record |
| `PatreonRefresh.PatreonAgent.FindOrUpdateExistingPatronDetails` | src/clients/patreon/tests/PatreonAgent.test.ts:221-377 | nothing and no call for an unknown username; the stored details, active, and no call for an unexpired record; for an expired record, a refresh with the stored refresh token and a fetch with the new access token, then the record is saved and the new amount answered active if still paid, or deleted and answered inactive with 0 |
| `PatreonRefresh.FreshReadsAreCached` | src/clients/patreon/tests/PatreonAgent.test.ts:246-269 | two reads of an unexpired record both give the stored details as active, with no provider call and no write |
| `LegacyPatreon.HasNotExpired` | src/rewards/patreonAgent.ts:174-176 | on a stored expiry: true exactly when now is after it, or after the epoch when there is none |
| `LegacyPatreon.ExistingPatreonDetails` | src/rewards/patreonAgent.ts:214-230 | nothing exactly when the username has no record; otherwise the stored amount, "active" exactly when now is after the stored expiry |
| `LegacyPatreon.StoredTokens` | src/rewards/patreonAgent.ts:61-65 | the stored tokens are the response's, with the access token expiring `expires_in` seconds after now |
| `LegacyPatreon.UnpaidMemberActivenessDependsOnBranch` | src/rewards/patreonAgent.ts:125-137 | in any registration outcome for a member who has not paid, the answer is active exactly when the username already had a record (update branch) and inactive when it is created |
| `LegacyPatreon.PaidMemberActivenessDependsOnBranch` | src/rewards/patreonAgent.ts:125-137 | in any registration outcome for a paid member with a next charge date, the answer is active exactly when the record is created and inactive when it is updated, whatever that date is |
| `LegacyPatreon.NoExpiryReadsActive` | src/rewards/patreonAgent.ts:174-176 | a stored record with no expiry reads as active at every instant after the epoch |
| `LegacyPatreon.LegacyPatreonAgent.constructor` | src/rewards/patreonAgent.ts:10-12 | the agent starts from a store keyed by username, with no requests made |
| `LegacyPatreon.LegacyPatreonAgent.RegisterPatreon` | src/rewards/patreonAgent.ts:28-45 | returns the stored details with no request and no write when they report active; otherwise makes the token and identity requests and registers as `UpdateUserPatreon` does |
| `LegacyPatreon.LegacyPatreonAgent.UpdateUserPatreon` | src/rewards/patreonAgent.ts:47-172 | requests tokens with the code and the identity with the new access token; fails on a second Patreon account exactly when the stored id differs, and on the membership count exactly when it is present and not one, leaving the store unchanged; otherwise writes the member or non-member record and gives each branch's answer as written, comparing the unparsed next charge date |
| `LegacyPatreon.SharedPatreonAccountIsAccepted` | src/rewards/patreonAgent.ts:67-73 | two usernames registering the same Patreon account as non-members are both linked to it and both answered inactive with 0 |
| `Rewards.KeysWhere` | src/rewards/getRewards.ts:31-36 | selecting from a reward table gives no more keys than the table has |
| `Rewards.KeysWhereMembership` | src/rewards/getRewards.ts:31-36 | a key is selected exactly when some table entry with that key passes the test |
| `Rewards.KeysWhereWeaken` | src/rewards/getRewards.ts:33 | a weaker test selects every key a stronger one selects, in the same order |
| `Rewards.PatreonRewardKeysMembership` | src/rewards/getRewards.ts:33 | a Patreon reward is earned exactly when some entry with its key asks for no more than the pledge |
| `Rewards.PatreonRewardsGrowWithPledge` | src/rewards/getRewards.ts:33 | a larger pledge earns every Patreon reward a smaller one earns, in table order |
| `Rewards.GetAllPatreonRewardsForUser` | src/rewards/getRewards.ts:16-39 | nothing exactly when there are no details or the pledge is inactive; otherwise exactly the Patreon reward keys the pledge meets, in table order |
| `Rewards.UserHasRewardCharacterisation` | src/rewards/getRewards.ts:63-92 | a user has a reward exactly when every role it demands is held and enough games were played |
| `Rewards.UserHasReward` | src/rewards/getRewards.ts:63-92 | no reward when a demanded admin, moderator, tournament-organiser or developer role is missing, or when too few games were played |
| `Rewards.GetAllRewardsForUser` | src/rewards/getRewards.ts:41-61 | the earned Patreon rewards first, when the pledge is active, then every other reward the user satisfies, in table order |
| `UserAvatars.LastN` | src/databaseAdapters/user.ts:48-50 | keeping the newest `n` entries gives `min(length, n)` entries, a suffix of the input |
| `UserAvatars.LibraryAfterAdd` | src/databaseAdapters/user.ts:42-50 | after adding, the library has `min(old length + 1, size)` entries and is a suffix of the old library followed by the new id, which is last whenever the size is at least one |
| `UserAvatars.Without` | src/databaseAdapters/user.ts:57-59 | the filtered library holds no occurrence of the id and is no longer than before |
| `UserAvatars.WithoutRemovesExactlyId` | src/databaseAdapters/user.ts:57-59 | removal leaves no occurrence of the id and every other id as often as before |
| `UserAvatars.WithoutKeepsOrder` | src/databaseAdapters/user.ts:57-59 | the filtered library is a subsequence of the old one: the remaining ids, repeated ones included, keep their relative order |
| `UserAvatars.RemovalKeepsRepeatedIds` | src/databaseAdapters/user.ts:57-59 | filtering an absent id keeps `[1, 2, 1]` as it is, and filtering `1` leaves `[2]` |
| `UserAvatars.ClearedIfRemoved` | src/databaseAdapters/user.ts:61-66 | a current link is cleared exactly when it is the removed set's link |
| `UserAvatars.User.constructor` | src/databaseAdapters/user.ts:21-25 | a user holds the given links and library |
| `UserAvatars.MongoUserAdapter.constructor` | src/databaseAdapters/user.ts:20 | the adapter holds the given users |
| `UserAvatars.MongoUserAdapter.SetAvatarLinks` | src/databaseAdapters/user.ts:28-35 | both links become the given ones and the library is unchanged |
| `UserAvatars.MongoUserAdapter.SetAvatarAndUpdateLibrary` | src/databaseAdapters/user.ts:37-53 | the links become the set's, and the push-then-shift loop leaves the newest `librarySize` entries of the old library followed by the new id |
| `UserAvatars.MongoUserAdapter.RemoveAvatar` | src/databaseAdapters/user.ts:55-69 | the library loses the id, and each link is cleared exactly when it is the set's |
| `MetricLabels.LabelNames` | src/clients/victoriaMetrics/tests/promMetricGauge.test.ts:43-49 | the label names, in declaration order |
| `MetricLabels.GenerateLabelCombinations` | src/clients/victoriaMetrics/tests/metricFunctions.test.ts:39-55 | the number of combinations is the product of the option-set sizes |
| `MetricLabels.IsValidLabelCombination` | src/clients/victoriaMetrics/tests/metricFunctions.test.ts:71-91 | a map is invalid when a declared label is missing, when a key is undeclared, or when a value is outside its label's set |
| `MetricLabels.CombinationOrder` | src/clients/victoriaMetrics/tests/metricFunctions.test.ts:39-55 | the combination at position `i` times the number of combinations of the other labels, plus `j`, sets the first label to its `i`-th value over the `j`-th combination of the others, so the first label varies slowest |
| `MetricLabels.ValidIsGenerated` | src/clients/victoriaMetrics/tests/metricFunctions.test.ts:59-69 | every valid label map is among the generated combinations |
| `MetricLabels.GeneratedIsValid` | src/clients/victoriaMetrics/tests/metricFunctions.test.ts:71-91 | every generated combination is valid |
| `MetricLabels.ValidIffGenerated` | src/clients/victoriaMetrics/tests/metricFunctions.test.ts:58-92 | with distinct label names, a label map is valid exactly when it is generated |
| `MetricLabels.NoLabelsGiveEmptyCombination` | src/clients/victoriaMetrics/tests/metricFunctions.test.ts:8-11 | no declared labels give exactly one empty combination |
| `MetricLabels.SingleLabelCombinations` | src/clients/victoriaMetrics/tests/metricFunctions.test.ts:13-25 | a single label gives one combination per value, in set order |
| `MetricLabels.SingletonOptionsGiveOneCombination` | src/clients/victoriaMetrics/tests/metricFunctions.test.ts:27-37 | labels with one value each give a single combination, which, for distinct names, maps exactly the declared labels, each to its one value |
| `MetricLabels.ThreeSingletonLabels` | src/clients/victoriaMetrics/tests/metricFunctions.test.ts:27-37 | `{a}`, `{b}` and `{c}` give exactly `[{label1: a, label2: b, label3: c}]` |
| `MetricLabels.TwoLabelProduct` | src/clients/victoriaMetrics/tests/metricFunctions.test.ts:39-55 | `{a, b, c}` by `{d, e}` gives the six maps in the order listed |
| `MetricLabels.ValidityExamples` | src/clients/victoriaMetrics/tests/metricFunctions.test.ts:58-92 | a full map is valid; a missing label, an undeclared label and a value outside the set are not |
| `PromGauge.FirstEmptyLabel` | src/clients/victoriaMetrics/tests/promMetricGauge.test.ts:62-70 | nothing exactly when every label has a value; otherwise the name of a declared label without one |
| `PromGauge.ValidateGaugeConfig` | src/clients/victoriaMetrics/tests/promMetricGauge.test.ts:20-70 | rejects exactly the configurations that declare no label or a label without values, empty options first; otherwise passes name, help and collect through, with the label names in declaration order when labels are declared and none otherwise |
| `PromGauge.SetAccepts` | src/clients/victoriaMetrics/tests/promMetricGauge.test.ts:78-115 | accepted labels are present exactly when labels were declared; a gauge with no declared labels accepts exactly a bare value; declared labels are accepted exactly when they form a valid combination |
| `PromGauge.SetRejection` | src/clients/victoriaMetrics/tests/promMetricGauge.test.ts:78-115 | `set` refuses nothing exactly when it accepts the labels; it refuses for missing labels exactly when labels were declared and none were given |
| `PromGauge.DeclaredGaugeAcceptsGeneratedCombinations` | src/clients/victoriaMetrics/tests/promMetricGauge.test.ts:88-100 | a labelled gauge accepts exactly the generated label combinations |
| `PromGauge.PromAgent.constructor` | src/clients/victoriaMetrics/tests/promMetricGauge.test.ts:5 | no metric is registered at first |
| `PromGauge.PromAgent.RegisterMetric` | src/clients/victoriaMetrics/tests/promMetricGauge.test.ts:26 | appends the name to the registered metrics |
| `PromGauge.PromMetricGauge.constructor` | src/clients/victoriaMetrics/tests/promMetricGauge.test.ts:20-50 | registers the name, builds the client gauge with the checked options, and starts with no forwarded call |
| `PromGauge.PromMetricGauge.Set` | src/clients/victoriaMetrics/tests/promMetricGauge.test.ts:78-115 | forwards the bare value, or the labels and the value, exactly when the labels are accepted; otherwise the client gauge is untouched |
| `PromGauge.NewPromMetricGauge` | src/clients/victoriaMetrics/tests/promMetricGauge.test.ts:52-70 | fails exactly when the configuration is rejected, with nothing registered; otherwise a new gauge, registered and built as the constructor states |
| `PromGauge.ConstructorExamples` | src/clients/victoriaMetrics/tests/promMetricGauge.test.ts:20-70 | the constructor tests: the unlabelled and labelled options passed to the client gauge, and the two rejected configurations |
| `PromGauge.SetExamples` | src/clients/victoriaMetrics/tests/promMetricGauge.test.ts:78-115 | the `set` tests: the forwarded `set(2)`, the two forwarded labelled calls, and the refused bare value with nothing forwarded |
| `ConfigUtils.Lookup` | src/config/utils.ts:8 | a variable's value exactly when it is set |
| `ConfigUtils.GetRequiredEnvVariable` | src/config/utils.ts:7-17 | fails exactly when not under the test runner and the variable is unset or empty; otherwise returns the stored value as it is |
| `ConfigUtils.GetRequiredProdEnvVariable` | src/config/utils.ts:1-5 | in prod, exactly the required lookup; elsewhere the raw value, never failing |
| `ConfigUtils.TestRunNeverFails` | src/config/utils.ts:10-11 | under the test runner neither lookup fails, even for an unset variable |
| `ConfigUtils.SetVariableIsReturned` | src/config/utils.ts:10-17 | a variable with a non-empty value is returned by both lookups in every environment |
| `ConfigUtils.ProdRequirementFailsOnlyInProd` | src/config/utils.ts:1-5 | the prod-only lookup fails exactly when in prod and the plain lookup fails |
| `ConfigUtils.ValidateEnvironment` | src/config/config.ts:18-28 | outside the test runner, fails exactly when `ENV` is unset or not one of local, staging and prod |

## Left out

- Network I/O is not modelled. This covers the OAuth token exchange, the identity request and the Patreon controller's requests. Their answers are function parameters that always return an answer, so a failed token exchange or token refresh, which the source raises before writing anything, cannot happen in the model. The login URL built with `url.format` and every `console.log` line are also left out.
- Mongoose persistence is not modelled. The `findOne`, `findOneAndUpdate`, `create`, `save` and `deleteOne` calls become updates of an in-memory map, with no atomicity and no concurrent requests. Each operation is one sequential step.
- Lower-casing usernames (`toLowerCase`) is not modelled. The model takes usernames already lower-cased.
- Dates are integers in milliseconds, and ISO date strings are not parsed. A stored expiry is taken to be the instant of the date string it was saved from. A next charge date that both agents compare before storing it (src/clients/patreon/patreonAgent.ts:147 and src/rewards/patreonAgent.ts:126 and :135) is modelled by its comparison outcome: a date string is NaN and never compares as earlier or later (`UnparsedExpiryBefore`).
- `PatreonRefresh.PatreonAgent.UpdateCurrentPaidPatreonMember`: the implementation behind the tests is not part of this model. It is modelled as an upsert of the paid record that answers active, which is what the tests observe.
- `Rewards.GetAllPatreonRewardsForUser` and `Rewards.GetAllRewardsForUser` take the Patreon details as a parameter. In the source they come from `findOrUpdateExistingPatronDetails`, which may refresh, save or delete the record. That side effect is modelled by `PatreonRefresh.PatreonAgent.FindOrUpdateExistingPatronDetails` and is not repeated in the reward functions.
- `PatreonRefresh.PatreonAgent.FindOrUpdateExistingPatronDetails`: when a record is no longer paid, the tokens are written to it (`updateUserTokens`) before it is deleted. The contract states the final store, from which that intermediate write has gone.
- `PatreonRefresh.PatreonAgent.FindOrUpdateExistingPatronDetails`: when a record is still paid, it keeps its stored Patreon id whatever id the re-fetch reports. The tests do not cover a change of id.
- `PatreonRefresh.PatreonAgent.FindOrUpdateExistingPatronDetails`: the tests set the token expiry and the pledge expiry to the same instant. The model takes the pledge expiry as the staleness criterion.
- `PatreonRefresh.RefreshedRecord` and `PatreonRefresh.PaidRecord` overwrite the stored amount and expiry with what the re-fetch reports, never keeping a later stored date. The tests only replace an expired date with a later one, so they do not decide this.
- The linking agent does not keep pledges monotone. A member's link overwrites the stored amount and expiry with whatever Patreon reports.
- The linking agent stores a record for a non-member on a first link.
- The legacy agent checks the stored Patreon id under the field name `userId`, but it never checks whether another username already holds the Patreon account. The model reproduces both facts.
- `LegacyPatreon.LegacyPatreonAgent.UpdateUserPatreon`: an `included` list that is present but empty is truthy in JavaScript, so it fails the count check. The model follows that.
- The rest of `src/config/config.ts` is not modelled. Only its environment check is modelled; the rest is plumbing over configuration modules that are not part of this model.
- `src/metrics/systemMetrics.ts` is not modelled. It reads operating-system counters and uses floating-point division.
- `src/sockets/commands/admin/index.ts` is not modelled. It is a static registry of commands defined elsewhere.
- Gauge values are `real`, with no floating-point behaviour. The client library's gauge and the metrics agent are not modelled. The model records only what is handed to them.
- The gauge wrapper, `generateLabelCombinations` and `isValidLabelCombination` are not part of this model's source files. They are modelled from their tests.
- `PromGauge.PromMetricGauge.Set`: refusing labels given to a gauge that declares none is a modelling choice, because the tests do not cover that case.
- `PromGauge.NewPromMetricGauge`: the model checks the configuration before registering the name. The tests do not show that order.
- `UserAvatars.MongoUserAdapter.SetAvatarLinks`, `SetAvatarAndUpdateLibrary` and `RemoveAvatar` require the username to be stored. For an unknown username, `getUser` returns `null` and the first field assignment throws a `TypeError`. The model does not represent that failure.
- `UserAvatars.MongoUserAdapter.SetAvatarAndUpdateLibrary` takes the library size as a `nat`. With a negative size the source's `while` loop never ends, because shifting an empty library leaves its length at 0, which still exceeds the size. The model does not represent that non-termination.
- `UserAvatars.MongoUserAdapter.SetAvatarAndUpdateLibrary`: the library size comes from the rewards module's `getAvatarLibrarySizeForUser`, which is not part of this model. It is a parameter here.
