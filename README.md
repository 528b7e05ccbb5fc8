# Pegasus OSINT bot: a verified model of its core

The bot answers Telegram commands that look up public information: domains, threat
reputation, usernames and parcel numbers. Every lookup is rate-limited per user with a
sliding window, and the admin commands check the administrator list inline.

The repository also holds library code that the bot's handlers do not call:
- the whitelist and administrator guards of `utils/auth.py`;
- a classifier that refuses queries asking for sensitive personal data.

The model covers them as written.

Lookups can be stored as reports, and each lookup's result is turned into an HTML reply.

This project models these parts in Dafny, one module per source file:

| module | source | form |
|---|---|---|
| `Config` | `utils/config.py` | functions over the raw setting text |
| `Auth` | `utils/auth.py` | functions returning the guard's decision |
| `RateLimiting` | `utils/rate_limiting.py` | class `RateLimiter` with a `map` of windows |
| `Reports` | `modules/report.py` | class `ReportManager` with a table, an insertion order and a counter |
| `SensitiveData` | `utils/sensitive_data.py` | regex matchers as predicates, the detector as methods |
| `Luhn` | `SensitiveDataDetector._luhn_check` | the checksum as a function, the source's two loops as a method |
| `Domain` | `modules/domain.py` | name validation, reply text built by looping methods |
| `Threat` | `modules/threat.py` | source selection and reply text |
| `UserCheck` | `modules/usercheck.py` | validation, platform selection, result dictionary, reply text |
| `Track` | `modules/track.py` | courier detection and the reply dictionary |

Two support modules hold Python's string operations (`Text`) and `None` (`Options`).

The network replies, the clock and the configured keys are all parameters:
- HTTP replies or exceptions from VirusTotal, AbuseIPDB, the platforms and the JNE tracker;
- DNS, WHOIS and address results;
- `time.time()` and `datetime.now()`;
- API keys.

Each reply builder whose source appends lines is a method that does the same, proved
equal to a specification function. The lemmas state what the reply shows.

## Model

| member | source | states |
|---|---|---|
| Config.Pieces | utils/config.py:38 | the stripped non-empty pieces between commas: no piece is empty or has whitespace at either end, and there are at most one more pieces than commas |
| Config.ParseIds | utils/config.py:38 | `int()` of every piece in order: succeeds exactly when every piece is an integer numeral (with sign and single underscores), with one id per piece; otherwise names the first piece it refuses, every earlier piece being a numeral |
| Config.ParseIdsValues | utils/config.py:38 | each parsed id is the integer value of the piece at the same position |
| Config.ParseIdList | utils/config.py:35-43 | `get_admin_ids`/`get_whitelist_users`: a blank setting gives no ids; otherwise parsing succeeds exactly when every piece is a numeral, never with more ids than commas plus one, and a failure names the first piece `int()` raises on |
| Config.IdsRoundTrip | utils/config.py:35-43 | writing a non-empty id list as `"1,2,3"` and parsing it gives the same list back |
| Config.NumeralRoundTrip | utils/config.py:38 | every decimal numeral is accepted by `int()` and reads back as its number |
| Config.ParseNumerals | utils/config.py:38 | parsing the numerals of a list gives the list |
| Config.AllowedChatTypes | utils/config.py:45-48 | a blank setting gives the default pair `private`, `group`; otherwise exactly the setting's pieces, at most commas plus one |
| Config.CommasOnlyGiveNoChatTypes | utils/config.py:45-48 | the setting `","` is not blank, so it yields no chat types at all instead of the default pair |
| Config.TwoChatTypes | utils/config.py:48 | two clean comma-free words joined by a comma are read back as exactly those two types |
| Config.DefaultChatTypesSetting | utils/config.py:31 | the default setting text `private,group` gives the same types as a blank setting |
| Auth.IsAdmin | utils/auth.py:9-11 | the administrator filter: the sender is one of the configured administrator ids; `Auth.AdminGuardIsStricter` and `Auth.ConfiguredAdministrators` state what it admits |
| Auth.IsWhitelisted | utils/auth.py:14-25 | the filter passes exactly when no whitelist is required, or the user is an administrator, or the user is whitelisted |
| Auth.AdminRequired | utils/auth.py:28-37 | the command runs exactly for configured administrators; anyone else gets the administrator-only refusal text |
| Auth.WhitelistRequired | utils/auth.py:40-51 | a refusal always carries the whitelist refusal text |
| Auth.GuardAgreesWithFilter | utils/auth.py:14-25 | the decorator and the filter, written separately, make the same decision for every settings and user |
| Auth.AdminGuardIsStricter | utils/auth.py:9-11 | whoever passes the administrator guard passes the whitelist guard |
| Auth.OpenBot | utils/auth.py:43 | without a required whitelist every user passes the whitelist guard, while the administrator guard still admits only administrators |
| Auth.NoAdministrators | utils/auth.py:31-35 | with an empty administrator list the administrator guard refuses everybody |
| Auth.ConfiguredAdministrators | utils/auth.py:31 | when the administrator ids were parsed from a setting listing `ids`, exactly those users pass the administrator guard |
| RateLimiting.Prune | utils/rate_limiting.py:22-23 | keeps exactly the timestamps less than `period` older than `now`, never more than the window held |
| RateLimiting.PruneAppend | utils/rate_limiting.py:22-23 | pruning distributes over concatenation, so it keeps the window's order |
| RateLimiting.PruneIdempotent | utils/rate_limiting.py:22-23 | pruning twice at the same moment changes nothing more |
| RateLimiting.PruneKeepsRecent | utils/rate_limiting.py:22-23 | a window already inside the period is left as it is |
| RateLimiting.Min | utils/rate_limiting.py:26 | `min()` of a non-empty window: an element of it no larger than any other |
| RateLimiting.Admit | utils/rate_limiting.py:19-31 | `is_allowed`'s decision for a non-administrator: the new window grows by at most one entry; `RateLimiting.AdmitOutcome` states when it admits and what it records |
| RateLimiting.AdmitOutcome | utils/rate_limiting.py:19-31 | a request is let through exactly when the pruned window has room; it then records `now` after the pruned entries with wait 0; otherwise the window is only pruned and the wait is at least one second |
| RateLimiting.WaitWithinPeriod | utils/rate_limiting.py:26-28 | with a clock that never runs backwards, a refusal's wait is between 1 and `period` seconds |
| RateLimiting.AdmitKeepsBound | utils/rate_limiting.py:25-30 | a window holding at most `max_requests` entries still does after a request |
| RateLimiting.Remaining | utils/rate_limiting.py:47 | the reported room is never negative and never exceeds the limit |
| RateLimiting.RemainingAgreesWithAdmit | utils/rate_limiting.py:37-47 | `get_remaining` is positive exactly when `is_allowed` at the same moment would let the request through |
| RateLimiting.FreshWindowAdmits | utils/rate_limiting.py:33-35 | after `reset`, the user's next request passes and leaves a window of one entry |
| RateLimiting.RateLimiter.constructor | utils/rate_limiting.py:10-13 | starts with no windows and the given limit and period |
| RateLimiting.RateLimiter.IsAllowed | utils/rate_limiting.py:15-31 | administrators pass with no state change; otherwise the result and the user's new window are those of `Admit`, no other user's window changes, and no window exceeds the limit |
| RateLimiting.RateLimiter.Reset | utils/rate_limiting.py:33-35 | removes exactly the user's window |
| RateLimiting.RateLimiter.GetRemaining | utils/rate_limiting.py:37-47 | administrators get 999 with no state change; otherwise the result is `Remaining` and the user's window is pruned (a new user gains an empty entry, as with `defaultdict`), nothing else |
| Reports.ReportId | modules/report.py:19 | an id starts with `RPT` and ends with the counter zero-padded to at least four digits; `Reports.IdCarriesSerial` reads the counter back |
| Reports.IdCarriesSerial | modules/report.py:19 | an id made on a valid date ends in digits that read back as the counter value |
| Reports.IdsNeverRepeat | modules/report.py:18-19 | two different counter values never give the same id, whatever the dates, even past 9999 |
| Reports.ReportManager.constructor | modules/report.py:7-9 | an empty store with counter 0 |
| Reports.ReportManager.CreateReport | modules/report.py:11-31 | bumps the counter, stores the new report under an id that was not in use, made from the first clock reading's date, with the second reading as its timestamp, appends it to the insertion order, and `get_report` then finds it for its owner and for a caller who gives no user id |
| Reports.ReportManager.GetReport | modules/report.py:33-42 | the not-found error exactly for an unknown id; the access error exactly when a caller id that is given (and not 0) differs from the owner; otherwise the stored report |
| Reports.ReportManager.ListUserReports | modules/report.py:44-51 | only the caller's stored reports, newest first, each at most as often as it is stored, so none repeats; `min(limit, count)` of them for a non-negative limit and `max(0, count + limit)` for a negative one, all of them when the limit allows, and every report left out is no newer than each report shown |
| Reports.SortNewestFirst | modules/report.py:50 | the result is sorted newest first and is a permutation of the input |
| Reports.InsertByAge | modules/report.py:50 | inserting into a sorted list keeps it sorted and adds exactly the one report |
| Reports.UserReports | modules/report.py:45-48 | exactly the stored reports of the user |
| Reports.TakeNewest | modules/report.py:50-51 | the first `limit` reports of the sorted list belong to the user, are drawn from the user's reports without repetition, and every report of the user left out is no newer than those shown |
| Reports.ReportManager.DeleteReport | modules/report.py:53-63 | deletes exactly when `get_report` with the same arguments would find the report; it then removes only that id; otherwise nothing changes |
| Reports.ReportManager.CollectExpired | modules/report.py:66-74 | the first loop lists, in insertion order, exactly the ids of reports older than the age limit, each once |
| Reports.ReportManager.DeleteAll | modules/report.py:76-77 | the second loop removes exactly the listed ids and nothing else |
| Reports.ReportManager.CleanupOldReports | modules/report.py:65-79 | removes exactly the expired reports and returns how many there were |
| Reports.CleanupIdempotent | modules/report.py:65-79 | after a cleanup, no report left is expired at the same moment |
| Reports.CollectsExpired | modules/report.py:69-74 | collecting along a distinct listing of all ids finds each expired id exactly once |
| Reports.RemovalKeepsConsistent | modules/report.py:62 | removing ids from the table and the order keeps every id listed once and every report under its own id |
| Reports.RetainTwice | modules/report.py:76-77 | removing two sets of ids one after the other equals removing their union |
| Reports.GeneratedToTheSecond | modules/report.py:90 | `timestamp[:19].replace('T', ' ')` of a valid reading is the date, a space and the time to the second |
| Reports.FormatReportSummary | modules/report.py:82-95 | `format_report_summary`: the error line for an error, otherwise the summary lines and the formatted output; `Reports.SummaryShowsReport` and `Reports.SummaryOfError` state what it shows |
| Reports.SummaryShowsReport | modules/report.py:82-95 | a report's summary contains its id, its upper-cased type and the `Generated:` line with `timestamp[:19]` (the `T` replaced by a space), and ends with its formatted output |
| Reports.SummaryOfError | modules/report.py:83-84 | an error's summary is the error line, which contains the message |
| Reports.CalendarAnchors | modules/report.py:71 | the day count behind age arithmetic puts 1970-01-01 at day 0, 2000-03-01 at day 11017 and 2024-01-01 at day 19723 |
| Luhn.Valid | utils/sensitive_data.py:133-149 | the Luhn test on a digit string: the right-to-left checksum is a multiple of ten; `Luhn.Check` ties the source's loops to it and `Luhn.SingleDigitErrorDetected` states what it catches |
| Luhn.Check | utils/sensitive_data.py:133-149 | the source's two stride loops compute exactly the Luhn validity of the digit string |
| Luhn.ChecksumByStrides | utils/sensitive_data.py:141-148 | the sum over the odd positions from the right plus the doubled even ones is the checksum |
| Luhn.Doubled | utils/sensitive_data.py:147-148 | a doubled digit, less nine when two digits, is still a single digit |
| Luhn.SingleDigitErrorDetected | utils/sensitive_data.py:133-149 | two digit strings that differ in exactly one position never both pass |
| Luhn.ChecksumOneDigitChange | utils/sensitive_data.py:141-148 | changing one digit changes the checksum by exactly the change in that digit's weight |
| Luhn.AcceptedNumber | tests/test_sensitive_data.py:132-135 | the card number the tests accept passes |
| Luhn.RejectedNumber | tests/test_sensitive_data.py:137-140 | the number the tests reject fails |
| SensitiveData.DigitRun | utils/sensitive_data.py:15 | the run of digits from an index: all digits, and not followed by another digit |
| SensitiveData.CardAt | utils/sensitive_data.py:24 | a card-pattern match from an index ends at least sixteen characters later, inside the text |
| SensitiveData.NpwpAt | utils/sensitive_data.py:27 | an NPWP-pattern match from an index ends at least fifteen characters later, inside the text |
| SensitiveData.SearchIff | utils/sensitive_data.py:79 | `pattern.search` succeeds exactly when the pattern matches at some index |
| SensitiveData.FamilyMatchesIff | utils/sensitive_data.py:18 | a keyword regex with IGNORECASE matches exactly when one of its alternatives matches the lower-cased text at some index |
| SensitiveData.Scan | utils/sensitive_data.py:66-130 | what each of the eleven detectors answers; the account detector fires only with the account pattern and a bank word, the card detector only with a pattern match and a candidate passing the length and Luhn checks |
| SensitiveData.Classify | utils/sensitive_data.py:66-130 | the violations of a query: at most eleven, in the fixed detector order, none repeated; `SensitiveData.ClassifyMembers` states which are reported |
| SensitiveData.CheckInput | utils/sensitive_data.py:66-130 | the violations are exactly the list every detector contributes in the fixed order, and the query is sensitive exactly when that list is not empty |
| SensitiveData.AnyValidCard | utils/sensitive_data.py:93-99 | the loop over `findall` finds a card exactly when some candidate, once separators are stripped, has sixteen digits and passes Luhn |
| SensitiveData.AppendViolations | utils/sensitive_data.py:78-123 | the eleven `append` steps build exactly the list of the detectors that fired, in order |
| SensitiveData.ClassifyMembers | utils/sensitive_data.py:78-123 | a violation is reported exactly when its detector fires |
| SensitiveData.ClassifyOrdered | utils/sensitive_data.py:78-123 | violations come in the detectors' order, each at most once, so there are at most eleven |
| SensitiveData.ClassifyEmptyIff | utils/sensitive_data.py:125 | a query is not sensitive exactly when no detector fires |
| SensitiveData.BankAccountNeedsBankWord | utils/sensitive_data.py:87-90 | the bank-account violation is reported exactly when the digit pattern matches and the lower-cased text holds a bank word |
| SensitiveData.CardReportedIff | utils/sensitive_data.py:92-99 | the card violation is reported exactly when some `findall` candidate passes the length and Luhn checks |
| SensitiveData.CandidatesAreSixteenDigits | utils/sensitive_data.py:94-97 | every `findall` candidate has exactly sixteen digits once dashes and whitespace are removed, so the length test never fails |
| SensitiveData.CandidatesNeedMatch | utils/sensitive_data.py:93-94 | candidates exist only when the card pattern's search succeeds |
| SensitiveData.NikRunReported | utils/sensitive_data.py:15 | a run of exactly sixteen digits standing as a word is always reported |
| SensitiveData.PatternStart | utils/sensitive_data.py:15-27 | every digit pattern starts on a digit at a word boundary and spans at least ten characters |
| SensitiveData.Quiet | utils/sensitive_data.py:66-130 | a text in which no digit pattern can start and no keyword can be spelt is let through |
| SensitiveData.OrdinaryQueriesPass | tests/test_sensitive_data.py:71-102 | an IP address, a domain, a username, a parcel number and a postcode pass the classifier |
| SensitiveData.BankTermsUnwritable | utils/sensitive_data.py:30-33 | no bank keyword can be written with the characters of an ordinary query |
| SensitiveData.WarningMentions | utils/sensitive_data.py:151-181 | every warning shows the violation headline and the `/ethics` command |
| SensitiveData.WarningMessage | utils/sensitive_data.py:151-181 | `get_warning_message`: the warning starts with its fixed head and ends with its fixed foot; `SensitiveData.WarningLines` states the lines between them |
| SensitiveData.WarningLines | utils/sensitive_data.py:156-163 | the warning splits into its fixed head, one bullet per violation in order, and its fixed tail |
| SensitiveData.FilterMessage | utils/sensitive_data.py:188-203 | a query passes exactly when no violation is found, with an empty warning; otherwise it is refused with the warning listing the violations' descriptions |
| Domain.IsValidDomain | modules/domain.py:25-36 | `is_valid_domain`: an accepted name has 1 to 253 characters, each a letter, digit, dot or hyphen once lower-cased; `Domain.ValidDomainCharacterized` states the whole rule |
| Domain.ValidDomainCharacterized | modules/domain.py:25-36 | `is_valid_domain` holds exactly when the name is 1 to 253 characters, has no two adjacent dots, no 64 dot-free characters in a row, and only lower-case letters, digits, dots and hyphens after lower-casing |
| Domain.LabelsIff | modules/domain.py:32 | every dot-separated label is at most `n` long exactly when no `n + 1` consecutive characters are dot-free |
| Domain.CaseInsensitive | modules/domain.py:36 | a name and its lower-case form are judged alike |
| Domain.SpaceRejected | modules/domain.py:35-36 | a name holding whitespace anywhere is rejected |
| Domain.EdgesAccepted | modules/domain.py:25-36 | a leading or trailing dot or hyphen is not rejected |
| Domain.SampleNamesAccepted | tests/test_domain.py:11-13 | `google.com` and `123.com` are accepted |
| Domain.SubdomainAccepted | tests/test_domain.py:12 | `sub.domain.example.com` is accepted |
| Domain.SampleNamesRejected | tests/test_domain.py:15-18 | a name with a space, a double dot, the empty name and 255 letters are rejected |
| Domain.PrepareLookup | modules/domain.py:9-13 | the name is accepted exactly when its lower-cased, stripped form is valid, and that form is the name used; an accepted name has no upper-case letter; a rejected one carries the invalid-format error |
| Domain.PrepareIdempotent | modules/domain.py:10 | an accepted name goes through the first step unchanged |
| Domain.PrepareIgnoresCase | modules/domain.py:10 | upper-casing the input does not change the lookup |
| Domain.InnerSpaceRejected | modules/domain.py:10-13 | whitespace between two other characters survives `strip` and gets the name rejected |
| Domain.FormatDomainResult | modules/domain.py:114-150 | an error gives the error line alone; otherwise the header, addresses, record blocks and WHOIS lines joined by newlines |
| Domain.AppendAddressLines | modules/domain.py:125-126 | the loop appends one line per address, for the first five |
| Domain.AppendRecordLines | modules/domain.py:135-136 | the loop appends one line per record, for the first three |
| Domain.AppendRecordBlocks | modules/domain.py:132-136 | the loop appends the block of each record type found, in the fixed order |
| Domain.AppendWhoisLines | modules/domain.py:138-148 | the WHOIS fields present under their heading, or the note in italics |
| Domain.AddressesShown | tests/test_domain.py:54-71 | the reply contains the domain name and each of the first five addresses |
| Domain.OnlyLeadingEntriesShown | modules/domain.py:125-136 | addresses past the fifth and records past the third never affect the reply |
| Domain.RecordTypesInOrder | modules/domain.py:132-134 | the record-type headings are exactly those of the types found, in the fixed order |
| Domain.ReplyLength | modules/domain.py:118-148 | the reply has at most 41 lines |
| Domain.ErrorReplyAlone | tests/test_domain.py:74-79 | an error entry is answered by its error line, which shows the error |
| Threat.TargetType | modules/threat.py:7-11 | a requested type is kept; `auto` becomes `ip` or `domain` |
| Threat.AutoTypeIff | modules/threat.py:8 | the automatic type is `ip` exactly when every character other than `:` is a digit or a dot |
| Threat.Ipv6Typing | modules/threat.py:8 | `2001:db8::1` is typed as a domain, while `::1` is typed as an address |
| Threat.VirusTotalUrl | modules/threat.py:42-45 | the endpoint is the address URL for `ip` and the domain URL otherwise, followed by the target |
| Threat.VirusTotal | modules/threat.py:35-76 | no report without a key; counts only from a 200 reply; with a key, an HTTP reply yields a report exactly for status 200, 404 or 401: the counts for 200, the not-found note for 404, the invalid-key error for 401; an exception gives the failure error carrying its message |
| Threat.AbuseIpDb | modules/threat.py:79-114 | no report without a key; counts only from a 200 reply; with a key, an HTTP reply yields a report exactly for status 200 or 401: the report for 200, the invalid-key error for 401; an exception gives the failure error carrying its message |
| Threat.ThreatCheck | modules/threat.py:6-32 | the result keeps the target and settled type; the VirusTotal entry is exactly `check_virustotal`'s outcome; the AbuseIPDB entry is exactly `check_abuseipdb`'s outcome for an `ip` target and absent otherwise; the note exactly when neither produced anything |
| Threat.CheckThreatIntelligence | modules/threat.py:6-32 | the steps of the source compute exactly `ThreatCheck` |
| Threat.NoKeysGiveNote | modules/threat.py:29-30 | without any configured key the result carries the note |
| Threat.DomainsSkipAbuseIpDb | modules/threat.py:24 | a target typed as a domain is never sent to AbuseIPDB |
| Threat.RiskOf | modules/threat.py:152-159 | the four bands partition the scores at 25, 50 and 75 |
| Threat.RiskMonotone | modules/threat.py:152-159 | a higher score never lands in a lower band |
| Threat.RiskLabel | modules/threat.py:152-159 | the chain of comparisons picks the label of the score's band |
| Threat.RiskTextDistinct | modules/threat.py:153-159 | the four labels are distinct |
| Threat.FormatThreatResult | modules/threat.py:117-176 | the reply is the header, then the note alone or each source's lines, joined by newlines |
| Threat.NoteStopsReply | modules/threat.py:124-126 | a result with the note is answered with the header and the note only |
| Threat.ScoreShownWithBand | modules/threat.py:161 | an AbuseIPDB report's score line, with its band, is in the reply |
| Threat.NoSourceWarningUnreachable | modules/threat.py:173-174 | a lookup's own result never gets the missing-sources warning, because no sources means the note path is taken |
| UserCheck.ProfileUrl | modules/usercheck.py:6-15 | the profile URL is the platform's template with the username in its slot |
| UserCheck.SelectPlatforms | modules/usercheck.py:27-30 | no request means all eight platforms in declared order; otherwise the lower-cased requested names that are platforms |
| UserCheck.KnownLowered | modules/usercheck.py:30 | only known platforms are selected, never more than requested |
| UserCheck.SelectionKeepsOrder | modules/usercheck.py:30 | selection keeps the request order |
| UserCheck.KnownNamesSelected | modules/usercheck.py:30 | every requested name that is a platform once lower-cased is selected |
| UserCheck.AcceptableIff | modules/usercheck.py:21 | a username is accepted exactly when it is non-empty, holds a letter or digit, and holds only letters, digits, underscores and dashes |
| UserCheck.CheckPlatform | modules/usercheck.py:50-90 | the URL is the profile URL; found exactly on 200, available exactly on 404, unknown with a note otherwise; the status code kept exactly when a reply came |
| UserCheck.UserCheckOf | modules/usercheck.py:18-47 | the username is normalised; the error exactly for an unacceptable name; the checked count is the number of selected platforms |
| UserCheck.CheckUsername | modules/usercheck.py:18-47 | the steps of the source compute exactly `UserCheckOf` |
| UserCheck.StoreResults | modules/usercheck.py:44-45 | the zip loop's dictionary has one entry per distinct platform, in order of first appearance, each holding the last gathered result for its platform |
| UserCheck.Assign | modules/usercheck.py:45 | dictionary assignment keeps an existing key in place and appends a new one; the new entry is stored, entries for other platforms keep their values, and keys stay distinct |
| UserCheck.FillKeepsLast | modules/usercheck.py:44-45 | the dictionary's keys never repeat, and each entry is the last gathered entry for its platform |
| UserCheck.StoredResultIsLastCheck | modules/usercheck.py:40-45 | the result stored under a platform is `check_platform`'s outcome for it at the last position where it was selected |
| UserCheck.FillKeys | modules/usercheck.py:44-45 | the stored keys are the distinct selected platforms in order of first appearance |
| UserCheck.ResultsCoverSelection | modules/usercheck.py:27-45 | the results name each selected platform once, in order of first selection, and never outnumber the platforms counted as checked |
| UserCheck.AllPlatformsChecked | modules/usercheck.py:27-28 | checking with no platform list stores all eight, in declared order |
| UserCheck.RepeatedPlatformCountedTwice | modules/usercheck.py:30-45 | `github` and `GitHub` count as two checked platforms but give one result |
| UserCheck.InvalidChecksNothing | modules/usercheck.py:21-25 | an invalid username checks no platform |
| UserCheck.CountsPartition | modules/usercheck.py:105-107 | every result is counted exactly once among found, available and unknown |
| UserCheck.FormatUserCheckResult | modules/usercheck.py:93-134 | an error gives the error line alone; otherwise the header, the three counts, each non-empty group under its heading in dictionary order, and the closing note |
| UserCheck.AppendGroup | modules/usercheck.py:115-130 | the loop appends one line per result of the group, in dictionary order |
| UserCheck.GroupsListEveryResult | modules/usercheck.py:113-130 | the three groups together list every result exactly once |
| UserCheck.AllFoundCounted | modules/usercheck.py:105-106 | when every request answered 200, all results are counted as found and none as available |
| Track.DetectCourier | modules/track.py:40-58 | a Pos Indonesia answer only for numbers of length 10 or 12 |
| Track.DetectIgnoresCase | modules/track.py:41 | a number and its lower- and upper-case forms get the same courier |
| Track.JneNumbers | modules/track.py:43-44 | `JP` and twelve digits, in either case, is JNE |
| Track.JntNumbers | modules/track.py:46-47 | `JT` and ten to fifteen digits is J&T |
| Track.SiCepatNumbers | modules/track.py:49-50 | twelve digits alone is SiCepat, not Pos Indonesia |
| Track.UpsPrefixes | modules/track.py:52-53 | anything starting with `1Z` or `T` is UPS, even with a Pos Indonesia length |
| Track.FinalNewlineIgnored | modules/track.py:43 | `$` lets a JNE number followed by a newline still count as JNE |
| Track.PosIndonesiaNumbers | modules/track.py:55-56 | a number of length 10 or 12, not starting with `1Z` or `T`, with a character other than a digit or newline after its first two, is Pos Indonesia |
| Track.LettersArePosIndonesia | modules/track.py:55-56 | `ABCDEFGHIJ` is taken for a Pos Indonesia number |
| Track.UnknownByLength | modules/track.py:55-58 | a number longer than eighteen characters, not starting with `1Z` or `T`, is unknown |
| Track.TrackReply | modules/track.py:11-37 | the reply records the number and its courier name, always has a status, and the status is `success` exactly for a JNE number whose lookup succeeded |
| Track.TrackPackage | modules/track.py:6-37 | strips and upper-cases the number, then builds exactly `TrackReply` |
| Track.CourierLookup | modules/track.py:25-34 | the dispatch computes exactly the courier's entries: the JNE lookup's for JNE, a fixed note for every other courier, never overwriting the number or the courier |
| Track.LookupOnlyForJne | modules/track.py:25-34 | for a non-JNE number the reply does not depend on the JNE lookup |
| Track.UnknownCourierReply | modules/track.py:17-23 | an undetected courier gets exactly the number, the courier, the status `unknown` and the format note |
| Track.OtherCouriersOnlyNote | modules/track.py:27-34 | J&T, SiCepat, UPS and Pos Indonesia numbers only gain a note, and their status stays `unknown` |
| Track.TrackIgnoresCase | modules/track.py:7 | lower-casing the input first does not change the reply |
| Track.JneFields | modules/track.py:61-92 | the JNE lookup never overwrites the number or courier, and gives a status only when tracking succeeded |
| Text.SplitJoin | utils/config.py:38 | `split(',')` of comma-joined comma-free pieces gives the pieces back |
| Text.JoinSplit | utils/config.py:38 | joining the pieces of a split with the separator gives the text back |
| Text.SplitCount | utils/config.py:38 | `split` yields one more piece than there are separators |
| Text.StripEmptyIffBlank | utils/config.py:36 | `not s.strip()` holds exactly when every character is whitespace |
| Text.StripSpec | utils/config.py:38 | `strip` removes exactly the leading and trailing whitespace |
| Text.Take | modules/report.py:51 | `s[:n]` is a prefix of `s` of length `min(n, len)` for non-negative `n` and `max(0, len + n)` for negative `n` |
| Text.PaddedNumeralValue | modules/report.py:19 | the zero-padded counter still reads back as the counter |

## Left out

- Python's Unicode character classes. `\d`, `\w`, `\s`, `isalnum`, `isdigit`, `lower`, `upper`, `title` and `int()` are modelled on their ASCII part. `\s` and `strip` use Python's full `isspace` set.
- `Settings` loading from the environment and the `.env` file (pydantic), and the `SettingsProxy` attribute forwarding: each parser takes the raw setting text.
- Every network exchange is left out:
  - `resolve_domain`, `get_dns_records`, `get_domain_whois`;
  - the VirusTotal and AbuseIPDB requests;
  - the platform probes and `track_jne`.
  Their outcomes are parameters. The DNS record formatting (`MX`, `SOA`) and the address de-duplication through `set` are not modelled.
- `asyncio.gather` concurrency in `check_username`: each platform's outcome is a function of its position.
- Logging (`logger.warning` in `check_input`), the `ETHICS_MESSAGE` text and `get_ethics_content`.
- `format_track_result` (modules/track.py:107-144): only the reply dictionary of `track_package` is modelled.
- Timestamps: `time.time()` is an integer clock in seconds. Each `datetime.now()` call is its own `Moment` value passed in, so `create_report`'s two readings are two parameters. Floating-point seconds and fractional wait times are not modelled.
- RateLimiting.RateLimiter.constructor: requires `max_requests >= 1`. With a limit of 0 or less the source calls `min([])` on an empty window and raises. That path is not modelled.
- RateLimiting.RateLimiter.IsAllowed: the administrator list is a parameter rather than read from the settings module.
- Reports.SortNewestFirst: the source compares `isoformat()` strings. The model compares the fields they spell, through `StampOrder`, which orders the same for valid readings. The order among equal timestamps is left open.
- Reports.ReportManager.GetReport: report data is a type parameter. The JSON dictionary shape and the `"error" in report` test on stored data are not modelled.
- Threat.VirusTotal: `total_votes` is kept as its two counts (`votesHarmless`, `votesMalicious`), which the reply never shows. JSON fields are integers or optional text.
- Track.DetectCourier: its contract states only the Pos Indonesia length rule. The other rules, including the positive Pos Indonesia case, are stated by the lemmas listed under it; the lemmas give sufficient conditions for each courier rather than one characterisation of the whole rule chain.
- Auth.WhitelistRequired: its own contract states only the refusal text. `Auth.GuardAgreesWithFilter` states when it refuses.
- Aiogram message handling: the user id is a parameter, and a guard's reply is its decision.
