# codesign-audit: a verified model of the audit core

codesign-audit lists the signing certificates and provisioning profiles of an
App Store Connect account and flags what is expired, expiring soon or
invalid. It exists twice: a Ruby tool (`csa`) and a Swift rewrite.

This project models the Ruby tool's core:
- configuration and filter resolution;
- the fetch with its fall-back from standard to in-house mode;
- the normalisation of API records into rows;
- date handling, status classification, filtering and sorting;
- the table renderer's choices: sections, sort order, colours, prefixes and cells.

From the Swift rewrite it models:
- the expiring-asset record and its ordering;
- the building of assets from API records;
- the expiring-within-days filter;
- the layered configuration that loads the App Store Connect credentials.

Modules:
- `Wrappers`: Option and Result.
- `Strings`: Ruby `strip`, ASCII `downcase`, `split`, `include?`.
- `Values`: the Ruby values a row holds.
- `TimeUtils`: `lib/csa/time_utils.rb`.
- `Filtering`: `lib/csa/filtering.rb`. Rows live in a `RowArray` class whose methods mutate the array in place, as `select!`, `clear` and `sort_by!` do.
- `RecordNormalizer`: `lib/csa/record_normalizer.rb`.
- `CsaConfig`: `lib/csa/config.rb`.
- `Connect`: `lib/csa/connect_client.rb`. The SDK's global token is a field of an `Sdk` object.
- `TableRenderer`: `lib/csa/renderers/table_renderer.rb`.
- `ExpiringAsset`: the Swift asset and its comparator.
- `CodesignAuditApp`: building and filtering the Swift assets.
- `AscConfig`: the Swift configuration providers and `loadASCConfig`.

Instants are integer seconds since the Unix epoch.

Some inputs are parameters rather than effects:
- the current time;
- the environment;
- the file system and standard input;
- the date parsers and formatters;
- the App Store Connect SDK.

## Model

| member | source | states |
|---|---|---|
| TimeUtils.ParseStringDatetimeAsWritten | lib/csa/time_utils.rb:67-73 | As written, an error from the lenient parser inside the `rescue ArgumentError` handler escapes. The call raises exactly when the ISO-8601 parser raises ArgumentError and the lenient parser fails too. It answers nil exactly when the ISO-8601 parser raises another error. |
| TimeUtils.RejectedTextRaises | lib/csa/time_utils.rb:67-73 | Text that both parsers reject with ArgumentError makes the as-written method raise, where the corrected one answers nil. |
| TimeUtils.ParseStringDatetime | lib/csa/time_utils.rb:67-73 | The corrected parser agrees with the as-written one whenever that one returns, and answers nil where it raises. A result comes either from the ISO-8601 parser or, after its ArgumentError, from the lenient parser. |
| TimeUtils.ParseDatetime | lib/csa/time_utils.rb:10-19 | A Time or DateTime gives its instant. A Date gives local midnight. A String is parsed. Any other value gives nil. |
| TimeUtils.Expired | lib/csa/time_utils.rb:40-43 | Holds iff the expiration date parses to an instant strictly before now. |
| TimeUtils.ExpiringSoon | lib/csa/time_utils.rb:33-38 | Holds iff the expiration date parses to an instant at most `window_days` days after now. Past instants are included. |
| TimeUtils.ExpiredIsExpiringSoon | lib/csa/time_utils.rb:33-43 | With a window of zero days or more, an expired row is also expiring soon. |
| TimeUtils.SortKeyByExpiration | lib/csa/time_utils.rb:28-31 | The key is `[1, ∞]` exactly when the date does not parse. Otherwise it is `[0, instant]`. |
| TimeUtils.KeyLeTotal | lib/csa/time_utils.rb:28-31 | The array comparison of sort keys is total. |
| TimeUtils.KeyLeTransitive | lib/csa/time_utils.rb:28-31 | The array comparison of sort keys is transitive. |
| TimeUtils.DatedSortsFirst | lib/csa/time_utils.rb:28-31 | A row with a parseable date sorts strictly before a row without one. |
| TimeUtils.UtcDayMonotonic | lib/csa/time_utils.rb:21-26 | A later instant never falls on an earlier UTC day. |
| TimeUtils.DaysUntilExpiration | lib/csa/time_utils.rb:21-26 | Nil exactly when the date does not parse. Otherwise it is the difference of the UTC calendar days of the expiration and of now. |
| TimeUtils.DaysUntilExpirationAgrees | lib/csa/time_utils.rb:21-43 | An expired row is at most 0 days away. A negative day count means expired. A row expiring soon but not expired is between 0 and window days away. |
| TimeUtils.ToHumanDateKeepsStructure | lib/csa/time_utils.rb:45-65 | `to_human_date` keeps arrays' lengths and hashes' keys in order. It turns every date into text, and leaves strings under keys that are not date fields unchanged. |
| Filtering.RowArray.Clear | lib/csa/filtering.rb:22-23 | `clear` leaves the array empty. |
| Filtering.RowArray.Select | lib/csa/filtering.rb:40-50 | `select!` leaves exactly `Filter(old rows, keep)` in the array, in place. |
| Filtering.RowArray.SortByExpiration | lib/csa/filtering.rb:15 | `sort_by!` leaves a permutation of the old rows, sorted by expiration key. |
| Filtering.Filter | lib/csa/filtering.rb:40-50 | A row is kept iff it was present and satisfies the predicate. The result is never longer than the input. |
| Filtering.FilterAppend | lib/csa/filtering.rb:40-50 | Filtering distributes over appending a row. |
| Filtering.FilterKeepsOrder | lib/csa/filtering.rb:40-50 | The kept rows are a subsequence of the input, in the same order. |
| Filtering.FilterIdempotent | lib/csa/filtering.rb:40-50 | Filtering twice with one predicate is filtering once. |
| Filtering.StatusesFor | lib/csa/filtering.rb:27-38 | Never empty, and drawn from expired, expiring_soon, invalid and ok. "expired" iff expired. "expiring_soon" iff not expired and within 30 days. "invalid" iff the state is INVALID. Never both expired and expiring_soon. "ok" iff it is the only status. |
| Filtering.TypeFor | lib/csa/filtering.rb:52-57 | "development" iff the certificate type (else the profile type) contains "development" ignoring case. Otherwise "distribution". |
| Filtering.NoDevelopmentInEmptyText | lib/csa/filtering.rb:52-57 | A row with no type is "distribution". |
| Filtering.ExclusionIsAbsolute | lib/csa/filtering.rb:20-25 | An asset kind left out of the asset filter ends with no rows, whatever the other filters say. |
| Filtering.FilteredMeetsCriteria | lib/csa/filtering.rb:7-13 | A row survives `apply` iff its kind is included, one of its statuses is selected (when statuses are given), and its type is selected (when types are given). |
| Filtering.FilterByAsset | lib/csa/filtering.rb:20-25 | Each array is emptied iff its kind is excluded, and is otherwise untouched. |
| Filtering.FilterByStatus | lib/csa/filtering.rb:40-44 | No status list leaves the rows alone. Otherwise exactly the rows with a selected status remain. |
| Filtering.FilterByType | lib/csa/filtering.rb:46-50 | No type list leaves the rows alone. Otherwise exactly the rows with a selected type remain. |
| Filtering.Apply | lib/csa/filtering.rb:7-18 | Certificates are the filtered rows in their original order. Profiles are a permutation of the filtered rows, sorted by expiration. The same two arrays are returned. |
| Filtering.InsertByExpiration | lib/csa/filtering.rb:15 | Inserting adds exactly the one row to the multiset. |
| Filtering.InsertKeepsSorted | lib/csa/filtering.rb:15 | Inserting into sorted rows keeps them sorted. |
| Filtering.UndatedSortLast | lib/csa/filtering.rb:15 | In sorted rows, every dated row comes before every undated row. |
| RecordNormalizer.DeleteAt | lib/csa/record_normalizer.rb:20 | `delete_prefix('@')` removes exactly one leading '@' and otherwise changes nothing. |
| RecordNormalizer.IvarHash | lib/csa/record_normalizer.rb:18-23 | The hash built from instance variables has exactly their names without '@' as keys. |
| RecordNormalizer.IvarHashValues | lib/csa/record_normalizer.rb:18-23 | With distinct '@' names, each instance variable's value is found under its name. |
| RecordNormalizer.Normalized | lib/csa/record_normalizer.rb:13-27 | Nil for nil. Otherwise the record's hash without the redacted fields: a Hash keeps every other entry, and an object keeps every other instance variable. |
| RecordNormalizer.HashAndObjectAgree | lib/csa/record_normalizer.rb:13-27 | A Hash record and an object record with the same attributes normalise to the same row. |
| RecordNormalizer.Normalize | lib/csa/record_normalizer.rb:13-27 | `normalize` returns `Normalized(record)` and leaves the input alone. |
| RecordNormalizer.NormalizeAll | lib/csa/record_normalizer.rb:9-11 | One row per record, each normalised. Nil exactly where the record is nil. |
| CsaConfig.OrElse | lib/csa/config.rb:22-23 | Ruby `\|\|` on optional strings: the option when given, else the fallback. |
| CsaConfig.ResolveExplicitApiKeyFile | lib/csa/config.rb:47-49 | The key-file option, else ASC_KEY_FILE. |
| CsaConfig.ResolveApiKeyFile | lib/csa/config.rb:51-59 | An explicit file wins. With stdin requested there is none. Otherwise the file is `AuthKey_<id>.p8` in the working directory, iff a key id is known and that file is a regular file. |
| CsaConfig.ResolveApiKeyContent | lib/csa/config.rb:61-69 | Nothing without stdin. Stdin next to a key file is an error. Blank stdin is an error. Otherwise the text read. |
| CsaConfig.StdinUnreadIsIrrelevant | lib/csa/config.rb:61-69 | When stdin is not read, its content cannot change the outcome. |
| CsaConfig.Cleaned | lib/csa/config.rb:76 | Each token stripped and downcased, in the same position. |
| CsaConfig.RejectEmpty | lib/csa/config.rb:77 | `reject(&:empty?)` keeps the entries in order, keeps each non-empty entry exactly as often as it occurs, and leaves no empty entry. |
| CsaConfig.RejectEmptyKeepsNonEmpty | lib/csa/config.rb:77 | A list without empty entries comes back unchanged. |
| CsaConfig.CleanTokens | lib/csa/config.rb:74-77 | The result is the stripped, downcased tokens in their order, minus the empty ones. Each non-empty cleaned token occurs exactly as often as in the mapped list. No empty token remains. |
| CsaConfig.CleanTokensKeepsNonBlank | lib/csa/config.rb:74-77 | Every non-blank token survives, stripped and downcased. |
| CsaConfig.ApplyAliases | lib/csa/config.rb:78 | Each token is replaced by its alias target when it has one, and kept otherwise. |
| CsaConfig.FirstIndexUnique | lib/csa/config.rb:79 | An occurrence with no earlier copy is the first occurrence. |
| CsaConfig.Uniq | lib/csa/config.rb:79 | Same members and no duplicates. The members appear in the order of their first occurrences in the input. |
| CsaConfig.Without | lib/csa/config.rb:81 | `a - b` keeps the elements of a that are not in b, in a's order. Each kept element occurs as often as in a; elements of b do not occur. |
| CsaConfig.ResolveSelectedFilters | lib/csa/config.rb:71-85 | No filter option gives nil. Otherwise it succeeds iff every cleaned, aliased token is error, warn or ok, and then gives those tokens without duplicates. Failure names the invalid tokens. |
| CsaConfig.AliasTargetsAreValid | lib/csa/config.rb:5-17 | Every alias maps into the valid filters. |
| CsaConfig.ValidFiltersAreAliases | lib/csa/config.rb:5-17 | Every valid filter is an alias of itself. |
| CsaConfig.AliasedValidIffAliases | lib/csa/config.rb:78-81 | After aliasing, all tokens are valid iff every token was an alias key. |
| CsaConfig.AcceptedIffAllAliases | lib/csa/config.rb:71-85 | A filter string is accepted iff every cleaned token is a known alias. |
| CsaConfig.SplitAtSeparator | lib/csa/config.rb:75 | `split(',')` cuts at the first separator. |
| CsaConfig.SplitWithoutSeparator | lib/csa/config.rb:75 | Text without the separator splits into itself. |
| CsaConfig.ExampleTokens | lib/csa/config.rb:74-77 | "Errors, expired" cleans to errors and expired. |
| CsaConfig.ErrorsAndExpiredSelectError | lib/csa/config.rb:71-85 | The filter "Errors, expired" resolves to just "error". |
| CsaConfig.NewConfig | lib/csa/config.rb:21-31 | The key id and issuer id come from their option, else the environment. The key file is the one `resolve_api_key_file` picks for that key id. Key content is present iff stdin was requested, and is then the non-blank stdin text, with no key file. The three flags are copied from the options. The selected filters are those `resolve_selected_filters` returns. Construction fails iff the stdin key or the filter list is rejected. The stdin error is raised first, the filter error only when the stdin key is accepted. |
| Connect.TokenFor | lib/csa/connect_client.rb:22-29 | The token carries the configured credentials and the requested mode. |
| Connect.ModeOutcome | lib/csa/connect_client.rb:21-43 | Success requires Token.create to succeed. A wanted kind is what the SDK lists, and an unwanted kind is `[]`. The attempt fails iff token creation fails or a wanted listing raises. |
| Connect.ModeToken | lib/csa/connect_client.rb:22-29 | The global token is replaced iff Token.create succeeds, even if a listing then raises. |
| Connect.Requests | lib/csa/connect_client.rb:22-29 | One token request per attempt, in the attempt's mode. |
| Connect.AttemptModes | lib/csa/connect_client.rb:11-17 | One or two attempts. The first is in the configured mode. A second happens iff the first raised, and it is in-house. |
| Connect.ForcedInHouseNeverStandard | lib/csa/connect_client.rb:11-17 | With in-house forced, no attempt is made in standard mode. |
| Connect.OutcomeIsLastAttempt | lib/csa/connect_client.rb:11-17 | The result is the whole outcome of the last attempt, and every earlier attempt raised. |
| Connect.SuccessLeavesItsToken | lib/csa/connect_client.rb:11-43 | After a successful fetch the SDK holds the token of the attempt that produced the assets. |
| Connect.ConnectClient.constructor | lib/csa/connect_client.rb:7-9 | The client keeps its configuration. |
| Connect.ConnectClient.Fetch | lib/csa/connect_client.rb:11-17 | Returns `FetchOutcome`, leaves `FetchToken` as the global token, and appends the requests of the attempted modes. |
| Connect.ConnectClient.FetchForMode | lib/csa/connect_client.rb:21-43 | Returns `ModeOutcome`, leaves `ModeToken` as the global token, and records one token request. |
| TableRenderer.SectionsMatchAssetFilter | lib/csa/renderers/table_renderer.rb:31-37 | A section is rendered iff the asset filter does not exclude its kind. |
| TableRenderer.ProfileStateColumn | lib/csa/renderers/table_renderer.rb:72 | `profile_state` is the fourth profile heading and its first occurrence. |
| TableRenderer.RowColor | lib/csa/renderers/table_renderer.rb:92-97 | Red iff expired. Yellow iff not expired and within 30 days. No colour iff not within 30 days. |
| TableRenderer.RowColorMatchesStatuses | lib/csa/renderers/table_renderer.rb:92-97 | Red iff the row's statuses include expired. Yellow iff they include expiring_soon. |
| TableRenderer.Colorize | lib/csa/renderers/table_renderer.rb:112-116 | No colour leaves the values unchanged. Otherwise each non-nil value is wrapped in the colour and the reset code, and nil stays nil. Each cell is its value painted alone. |
| TableRenderer.TrimSeparators | lib/csa/renderers/table_renderer.rb:105 | Removes exactly the trailing run of whitespace, ':' and '-'. |
| TableRenderer.BeforeColonOrDash | lib/csa/renderers/table_renderer.rb:109 | The longest prefix before the first ':' or '-'. |
| TableRenderer.CertificateNamePrefix | lib/csa/renderers/table_renderer.rb:99-110 | Nil iff the name is empty. When the name ends with a non-empty display name, the result is the trimmed rest, if that is non-empty. Otherwise it is the stripped text before the first ':' or '-'. |
| TableRenderer.TypeBeforeDisplayName | lib/csa/renderers/table_renderer.rb:99-110 | A name "Kind: Display" with display name "Display" gives the prefix "Kind". |
| TableRenderer.CellOf | lib/csa/renderers/table_renderer.rb:78-79 | A cell is empty exactly for nil. |
| TableRenderer.ReadDigitsOfDigits | lib/csa/renderers/table_renderer.rb:58 | The digits `Integer#to_s` prints read back as the number. |
| TableRenderer.ReadDecimalOfDecimal | lib/csa/renderers/table_renderer.rb:58 | `Integer#to_s` of any integer, negative ones included, reads back as that integer. |
| TableRenderer.DaysCell | lib/csa/renderers/table_renderer.rb:79 | The days cell is empty exactly when the date does not parse. Otherwise its text reads back as the number of days. |
| TableRenderer.FormatRow | lib/csa/renderers/table_renderer.rb:39-45 | A formatted row has the same keys, and each value keeps its structure under `to_human_date`. |
| TableRenderer.CertificateValues | lib/csa/renderers/table_renderer.rb:54-64 | Five values. display_name, platform and expiration_date are the formatted row's entries under those keys. The type is the name prefix. The days value is the day count. |
| TableRenderer.CertificateCells | lib/csa/renderers/table_renderer.rb:47-68 | Five cells, each the certificate value in the same column painted in the row's colour. The days cell is empty iff the date does not parse. The type cell is empty iff there is no name prefix. A coloured row wraps the prefix in its colour. |
| TableRenderer.ProfileCells | lib/csa/renderers/table_renderer.rb:77-87 | Six cells. The days cell is empty iff the date does not parse. An INVALID profile's state cell is red whatever the row colour. Every other cell is the row-coloured value. |
| TableRenderer.ProfileValues | lib/csa/renderers/table_renderer.rb:78-80 | Six values. Each of the first five is the formatted row's entry under its heading, `profile_state` included. The last is the day count. |
| TableRenderer.SortRows | lib/csa/renderers/table_renderer.rb:48 | A permutation of the rows, sorted by expiration key. |
| TableRenderer.CertificateTable | lib/csa/renderers/table_renderer.rb:47-68 | Titled "Certificates", with the certificate headings and one row of cells per certificate in expiration order. |
| TableRenderer.ProfileTable | lib/csa/renderers/table_renderer.rb:70-90 | Titled "Profiles", with the profile headings and one row of cells per profile in the order given. |
| TableRenderer.Render | lib/csa/renderers/table_renderer.rb:22-27 | The included sections, certificates first, joined by a blank line. |
| ExpiringAsset.RawValue | src/CodesignAuditCLI/Sources/ExpiringAsset.swift:4-7 | "CERTIFICATE" exactly for certificates and "PROFILE" exactly for profiles. |
| ExpiringAsset.StrLessIrreflexive | src/CodesignAuditCLI/Sources/ExpiringAsset.swift:29-37 | No string is less than itself. |
| ExpiringAsset.StrLessTransitive | src/CodesignAuditCLI/Sources/ExpiringAsset.swift:29-37 | String order is transitive. |
| ExpiringAsset.StrLessTotal | src/CodesignAuditCLI/Sources/ExpiringAsset.swift:29-37 | Distinct strings are ordered one way or the other. |
| ExpiringAsset.StrLessAsymmetric | src/CodesignAuditCLI/Sources/ExpiringAsset.swift:29-37 | String order is asymmetric. |
| ExpiringAsset.DatedBeforeUndated | src/CodesignAuditCLI/Sources/ExpiringAsset.swift:16-27 | A dated asset sorts strictly before an undated one. |
| ExpiringAsset.EarlierDateFirst | src/CodesignAuditCLI/Sources/ExpiringAsset.swift:16-27 | Between different dates, the earlier sorts first. |
| ExpiringAsset.TieBreakIrreflexive | src/CodesignAuditCLI/Sources/ExpiringAsset.swift:29-37 | The tie-break never puts an asset before itself. |
| ExpiringAsset.Irreflexive | src/CodesignAuditCLI/Sources/ExpiringAsset.swift:15-38 | The comparator never puts an asset before itself. |
| ExpiringAsset.TieBreakTransitive | src/CodesignAuditCLI/Sources/ExpiringAsset.swift:29-37 | The kind, name and id tie-break is transitive. |
| ExpiringAsset.Transitive | src/CodesignAuditCLI/Sources/ExpiringAsset.swift:15-38 | The comparator is transitive. |
| ExpiringAsset.Asymmetric | src/CodesignAuditCLI/Sources/ExpiringAsset.swift:15-38 | The comparator is asymmetric. |
| ExpiringAsset.TotalOnDistinctIds | src/CodesignAuditCLI/Sources/ExpiringAsset.swift:15-38 | Assets with different ids are always ordered. |
| ExpiringAsset.UnorderedAreTied | src/CodesignAuditCLI/Sources/ExpiringAsset.swift:15-38 | Assets ordered neither way agree on date, kind, name and id. |
| ExpiringAsset.TiedAreInterchangeable | src/CodesignAuditCLI/Sources/ExpiringAsset.swift:15-38 | Tied assets compare alike against every third asset. |
| ExpiringAsset.NotBeforeTransitive | src/CodesignAuditCLI/Sources/ExpiringAsset.swift:15-38 | Incomparability is transitive, so the comparator is a strict weak order as `sorted(by:)` requires. |
| ExpiringAsset.Insert | src/CodesignAuditCLI/Sources/CodesignAuditApp.swift:118 | Inserting adds exactly that asset to the multiset. |
| ExpiringAsset.InsertKeepsSorted | src/CodesignAuditCLI/Sources/CodesignAuditApp.swift:118 | Inserting into a sorted list keeps it sorted. |
| ExpiringAsset.SortAssets | src/CodesignAuditCLI/Sources/CodesignAuditApp.swift:118 | `sorted(by:)` returns a permutation in which no asset follows one it sorts before. |
| ExpiringAsset.FormatExpiration | src/CodesignAuditCLI/Sources/ExpiringAsset.swift:50-55 | A missing date prints as NO_EXPIRATION. A present date is formatted. |
| CodesignAuditApp.CertificateAsset | src/CodesignAuditCLI/Sources/CodesignAuditApp.swift:102-114 | The name is the display name, else the name, else "Unknown Certificate". The details are "type \| serial" with UNKNOWN_ defaults. The id, kind and date are carried over. |
| CodesignAuditApp.ProfileAsset | src/CodesignAuditCLI/Sources/CodesignAuditApp.swift:128-140 | The name is the profile name, else "Unknown Profile". The details are "type \| uuid" with UNKNOWN_ defaults. The id, kind and date are carried over. |
| CodesignAuditApp.CertificateAssets | src/CodesignAuditCLI/Sources/CodesignAuditApp.swift:96-116 | Certificate assets only, never more than the records. |
| CodesignAuditApp.ProfileAssets | src/CodesignAuditCLI/Sources/CodesignAuditApp.swift:122-142 | Profile assets only, never more than the records. |
| CodesignAuditApp.CertificateAssetCount | src/CodesignAuditCLI/Sources/CodesignAuditApp.swift:97-100 | Exactly one asset per certificate record that has attributes. |
| CodesignAuditApp.ProfileAssetCount | src/CodesignAuditCLI/Sources/CodesignAuditApp.swift:123-126 | Exactly one asset per profile record that has attributes. |
| CodesignAuditApp.CertificateRecordListed | src/CodesignAuditCLI/Sources/CodesignAuditApp.swift:97-115 | Every certificate record with attributes yields its asset. |
| CodesignAuditApp.ProfileRecordListed | src/CodesignAuditCLI/Sources/CodesignAuditApp.swift:123-141 | Every profile record with attributes yields its asset. |
| CodesignAuditApp.BuildCertificateAssets | src/CodesignAuditCLI/Sources/CodesignAuditApp.swift:95-119 | A permutation of the certificate assets, in comparator order. |
| CodesignAuditApp.BuildProfileAssets | src/CodesignAuditCLI/Sources/CodesignAuditApp.swift:121-145 | A permutation of the profile assets, in comparator order. |
| CodesignAuditApp.FilterAssetsExpiringWithinDays | src/CodesignAuditCLI/Sources/CodesignAuditApp.swift:154-163 | An asset is kept iff it has a date no later than now plus the days. If the calendar cannot add the days, the bound is now. |
| CodesignAuditApp.FilterKeepsOrder | src/CodesignAuditCLI/Sources/CodesignAuditApp.swift:157-162 | Kept assets keep their relative order. |
| CodesignAuditApp.ExpiredAssetsStay | src/CodesignAuditCLI/Sources/CodesignAuditApp.swift:154-163 | An already-expired asset is always kept when the bound is not before now. |
| CodesignAuditApp.FilterKeepsSorted | src/CodesignAuditCLI/Sources/CodesignAuditApp.swift:157-162 | Filtering sorted assets leaves them sorted. |
| CodesignAuditApp.Run | src/CodesignAuditCLI/Sources/CodesignAuditApp.swift:20-26 | Both lists are sorted. Without a day limit they are all assets. With one, they are exactly the assets within the bound. |
| AscConfig.NormalizedInput | src/codesign-audit/Sources/codesign-audit.swift:145-153 | Nil iff the value is missing or all whitespace. Otherwise the value unchanged, untrimmed. |
| AscConfig.ValuesOfEntry | src/codesign-audit/Sources/codesign-audit.swift:105-124 | A key is present iff its input normalises to a value. It then holds that text, and it is secret iff it is the private key. |
| AscConfig.SetValue | src/codesign-audit/Sources/codesign-audit.swift:155-164 | A missing value leaves the map alone. A present one is stored as non-secret. |
| AscConfig.SetSecretValue | src/codesign-audit/Sources/codesign-audit.swift:166-175 | A missing value leaves the map alone. A present one is stored as secret. |
| AscConfig.ConfigValuesFrom | src/codesign-audit/Sources/codesign-audit.swift:105-124 | Setting the five keys one after another yields `ValuesOf`. |
| AscConfig.CliConfigValues | src/codesign-audit/Sources/codesign-audit.swift:105-113 | The command-line provider holds the normalised options. |
| AscConfig.EnvironmentConfigValues | src/codesign-audit/Sources/codesign-audit.swift:115-124 | The environment provider holds the normalised ASC_* variables. |
| AscConfig.ProvidersOf | src/codesign-audit/Sources/codesign-audit.swift:86-103 | It fails iff a config path is given and the file provider fails. Otherwise the command line comes first, then the environment, then the file iff a path is given. |
| AscConfig.ConfigurationProviders | src/codesign-audit/Sources/codesign-audit.swift:86-103 | Builds exactly `ProvidersOf`. |
| AscConfig.Lookup | src/codesign-audit/Sources/codesign-audit.swift:73-82 | A key is found iff some provider holds it. |
| AscConfig.FirstProviderWins | src/codesign-audit/Sources/codesign-audit.swift:73-82 | The first provider holding a key decides its value. |
| AscConfig.Precedence | src/codesign-audit/Sources/codesign-audit.swift:86-103 | A command-line value beats the environment, and the environment beats the file. |
| AscConfig.RequiredString | src/codesign-audit/Sources/codesign-audit.swift:74-75 | Succeeds iff some provider has the key. Otherwise it reports the missing key. |
| AscConfig.ResolvePrivateKey | src/codesign-audit/Sources/codesign-audit.swift:126-143 | A non-blank key path wins, and its file must be readable; the error names the expanded path. Otherwise a non-blank inline key is used. Otherwise the "missing private key" error. |
| AscConfig.LoadedConfig | src/codesign-audit/Sources/codesign-audit.swift:71-84 | Provider errors propagate. Then issuer id, key id and private key are required, in that order. The token expiration is optional. |
| AscConfig.LoadAscConfig | src/codesign-audit/Sources/codesign-audit.swift:71-84 | Loads exactly `LoadedConfig`. |

## Left out

- `lib/csa/cli.rb`, `lib/csa/warning_filter.rb`, `lib/csa/renderers/json_renderer.rb`, `lib/csa.rb` are not part of this model.
- `csa.swift`, `main.swift`, `ConfigLoader.swift` and `Package.swift` are not part of this model: argument parsing, wiring and packaging.
- The App Store Connect SDK calls are oracles of the token and the attempt number:
  - Ruby: Token.create, Certificate.all and Profile.all.
  - Swift: the paged certificate and profile fetches and the API provider.
- Network failures are only "raises" or "does not raise".
- `Time.iso8601`, `Time.parse`, `strftime` and Swift's `Calendar.date(byAdding:)` are functions handed in as parameters. Calendar arithmetic itself is not modelled.
- The local time zone is one fixed UTC offset, the `utcOffset` field of `TimeUtils.Calendar`.
- TimeUtils.ParseDatetime: a Date becomes local midnight under one fixed UTC offset. `Date#to_time` uses the offset in force on that date, so daylight-saving changes are lost.
- TimeUtils.Expiration: every member above it uses the corrected parser. Text that both parsers reject counts as undated, where the Ruby code raises.
- RecordNormalizer.Normalized: Hash records are taken to have string keys. A Hash with symbol keys such as `:certificate_content` would keep that entry, because Ruby's `delete('certificate_content')` removes only the string key.
- Instants are whole seconds, so sub-second precision is lost. A Swift `Date` is an integer too.
- Some inputs are parameters rather than effects:
  - `Time.now` and `Date()`;
  - `ENV` and `ProcessInfo`;
  - the working directory, `File.file?` and `$stdin.read`;
  - tilde expansion, file reads and the JSON file provider.
- TimeUtils.Expired: Ruby reads `Time.now` on every call, so two predicates on one row may see different instants. The model passes one `now` to each call.
- Filtering.StatusesFor: one `now` serves the whole classification.
- CodesignAuditApp.Run: each list's filter has its own `now`, as each call of `filterAssetsExpiringWithinDays` reads the clock anew.
- The terminal layout of `Terminal::Table` is a parameter of `TableRenderer.Render`. The Swift `print` output, verbose logging and Noora output are left out.
- Strings.Lower: downcases ASCII letters only. Ruby's full Unicode case mapping is not modelled.
- Strings.Split: keeps trailing empty fields, which Ruby's `split` drops. Blank tokens are removed afterwards anyway, so the selected filters are the same.
- Values.ToS: a Time, Array or Hash renders as the empty string. Only nil, strings, symbols and scalars matter where `to_s` is used.
- Filtering.FilterByAsset: requires the two arrays to be distinct objects. The Ruby caller always passes two different arrays.
- Filtering.Apply: requires distinct arrays, for the same reason.
- Hash key order in rows is not modelled. A row is a map. Nested hash values in `Values.Value` keep their order.
- Filtering.RowArray.SortByExpiration: promises a sorted permutation, not a particular order among equal keys. Ruby's `sort_by!` is not stable either.
- TableRenderer.SortRows: promises a sorted permutation, not a particular order among equal keys.
- ExpiringAsset.StrLess: Swift `String` comparison is approximated by character-by-character order. Unicode canonical equivalence is not modelled.
- ExpiringAsset.SortAssets: an insertion sort stands in for Swift's `sorted(by:)`. Only sortedness and the permutation are promised.
- TableRenderer.TrimSeparators: strips only the final run of separators. Ruby's `$` would also match before an embedded newline, which a certificate name does not contain.
- Table cells are their text. Terminal::Table's own padding is not modelled.
- AscConfig.Lookup: values of the JSON file provider are strings keyed by the five known keys. Other keys and typed values are not modelled.
- AscConfig.RequiredString: treats secret and non-secret values alike. Redaction in logs is not modelled.
- The `requests` log of `Connect.Sdk` is ghost state that exists only to state which tokens were asked for.
- `Config` accepts the filter words error, warn and ok. `Filtering.statuses_for` produces expired, expiring_soon, invalid and ok.
- A run with in-house forced still retries once in in-house mode after a failure.
- `sort_by!` is not stable.

## Findings

| source | as written | input that shows it | evidently intended | confidence | as-written member | corrected member |
|---|---|---|---|---|---|---|
| lib/csa/time_utils.rb:67-73 | The `rescue ArgumentError` handler calls `Time.parse`. Its own ArgumentError is not covered by the later `rescue`, so `parse_string_datetime` raises. | The string "bogus", which `Time.iso8601` and `Time.parse` both reject | nil for text no parser accepts, so the row counts as undated | not executed | TimeUtils.ParseStringDatetimeAsWritten, TimeUtils.RejectedTextRaises | TimeUtils.ParseStringDatetime |
