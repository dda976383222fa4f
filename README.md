# TokenEater in Dafny

TokenEater is a macOS menu-bar app with two desktop widgets. It shows how much of their Claude quotas a user has consumed: the five-hour session, the week, and the week on Sonnet. The user can connect it by importing the `sessionKey` and `lastActiveOrg` cookies from a Chromium-based browser. This project models the decision logic of the app and proves properties of that model.

- **Cookie import** (`BrowserCookieReader.swift`):
  - the browser registry and profile discovery;
  - the keychain status classification and the key derivation parameters;
  - the per-profile fallback, the row loop and the classification of a cookie store;
  - the decoding of a `v10`/`v11` encrypted value in the modern layout (16-byte header and IV) and the legacy layout (IV of sixteen spaces).
- **Menu bar** (`MenuBarView.swift`):
  - the pinned-metric set and its toggle;
  - the percentages and the text the menu bar draws;
  - the session-reset countdown;
  - the colour bands at 60 and 85.
- **Settings window** (`SettingsView.swift`):
  - saving and loading the four pin toggles;
  - the browser icons and the proxy port fallback;
  - the authentication label;
  - when the buttons are enabled.
- **Usage widget** (`UsageWidgetView.swift`): view selection, gauges, countdown text, colour bands and fill clamping.
- **Pacing widget** (`PacingWidgetView.swift`): view selection, the signed delta, reset-line visibility and the "days/hours" countdown.
- **Shared extensions** (`Extensions.swift`): hex colour parsing by mask and shift, the custom colour default, and the French "time ago" buckets.

External calls are modelled as parameters:
- CommonCrypto's AES-128-CBC and PBKDF2-HMAC-SHA1, and UTF-8 decoding, are fields of `CookieDecryption.Primitives`. They are uninterpreted total functions.
- The keychain is a `Keychain` object with a reply oracle and a log of lookups.
- The cookie databases are a `CookieDatabases` object with an access oracle and a log of the stores opened.
- The file system is a `FileSystem` value.
- Clock readings are `now` parameters, in seconds, as `real` values.

Where the app formats a number, the model also defines a reader for the text. It then proves that reading the text back gives the value it was made from.

## Model

| member | source | states |
|---|---|---|
| CookieDecryption.AesDecrypt | ClaudeUsageApp/BrowserCookieReader.swift:305-331 | a text only when the cipher reports success, wrote at least one byte and the bytes are UTF-8; that text is the decoded output |
| CookieDecryption.ParseEnvelope | ClaudeUsageApp/BrowserCookieReader.swift:277-284 | the envelope re-assembles to the stored bytes; it is too short exactly for three bytes or fewer; a versioned envelope has tag v10 or v11 and a non-empty payload |
| CookieDecryption.EnvelopeOfTaggedPayload | ClaudeUsageApp/BrowserCookieReader.swift:280-285 | a tag followed by a non-empty payload is read back as that tag and payload |
| CookieDecryption.ModernLayout | ClaudeUsageApp/BrowserCookieReader.swift:285-290 | the modern layout exists exactly for payloads over 48 bytes; header, IV and ciphertext concatenate to the payload, with 16-byte header and IV |
| CookieDecryption.ModernLayoutOfParts | ClaudeUsageApp/BrowserCookieReader.swift:285-290 | a payload written as header, IV and ciphertext splits back into exactly those parts |
| CookieDecryption.DecryptPayload | ClaudeUsageApp/BrowserCookieReader.swift:285-299 | the modern result when that attempt gives text, else the legacy attempt under the IV of spaces; payloads of 48 bytes or fewer go straight to the legacy attempt |
| CookieDecryption.DecryptCookieValue | ClaudeUsageApp/BrowserCookieReader.swift:277-303 | no value for three bytes or fewer; the UTF-8 text of the data for any other prefix; the decrypted payload after v10 or v11 |
| CookieDecryption.VersionTagsAgree | ClaudeUsageApp/BrowserCookieReader.swift:280-284 | v10 and v11 envelopes with the same payload decrypt identically |
| CookieDecryption.ModernRoundTrip | ClaudeUsageApp/BrowserCookieReader.swift:285-294 | a value stored in the modern layout whose ciphertext the cipher turns into UTF-8 text decodes to that text |
| CookieDecryption.LegacyRoundTrip | ClaudeUsageApp/BrowserCookieReader.swift:296-299 | a value stored in the legacy layout decodes to its text whenever the modern attempt gives nothing |
| CookieStore.Plaintext | ClaudeUsageApp/BrowserCookieReader.swift:243-250 | a row yields a value only when it is counted (named, non-empty blob) and the decrypted text is non-empty |
| CookieStore.CountedRows | ClaudeUsageApp/BrowserCookieReader.swift:243-248 | the counted rows are rows of the store, each with a name and a non-empty blob |
| CookieStore.CountedRowsSnoc | ClaudeUsageApp/BrowserCookieReader.swift:243-248 | one more row adds itself to the counted rows exactly when it has a name and a non-empty blob |
| CookieStore.CountedRowsEmpty | ClaudeUsageApp/BrowserCookieReader.swift:243-248 | nothing is counted exactly when every row lacks a name or has an empty blob |
| CookieStore.CountedRowAt | ClaudeUsageApp/BrowserCookieReader.swift:243-248 | every named row with a non-empty blob is counted |
| CookieStore.HarvestedCount | ClaudeUsageApp/BrowserCookieReader.swift:238-261 | `foundCount` is the number of counted rows, whether they decrypt or not |
| CookieStore.AbsorbSlot | ClaudeUsageApp/BrowserCookieReader.swift:250-259 | a row overwrites a cookie's value exactly when it supplies that cookie, and leaves it otherwise |
| CookieStore.HarvestedSlot | ClaudeUsageApp/BrowserCookieReader.swift:238-261 | a cookie is missing exactly when no row supplies it; otherwise its value is that of the last row supplying it |
| CookieStore.HarvestedValuesNonEmpty | ClaudeUsageApp/BrowserCookieReader.swift:250-259 | collected values are never empty strings |
| CookieStore.HarvestRows | ClaudeUsageApp/BrowserCookieReader.swift:238-261 | the row loop leaves `sessionKey`, `orgID` and `foundCount` as the specification fold over the rows defines them |
| CookieStore.Classify | ClaudeUsageApp/BrowserCookieReader.swift:263-274 | noCookiesInDB iff nothing was counted; decryptionFailed(found) iff rows were counted but neither cookie was found; missingCookie iff exactly one was found, with matching flags; success iff both were found, carrying their values |
| CookieStore.ReadOutcomeSuccess | ClaudeUsageApp/BrowserCookieReader.swift:186-275 | `ReadOutcome`, the result of `readCookies` for one store, yields cookies only when the store opened and its query prepared; the cookies carry the browser name and two non-empty values |
| CookieStore.ReadOutcomeErrors | ClaudeUsageApp/BrowserCookieReader.swift:189-236 | a store that opens neither as a copy nor immutably gives dbOpenFailed(path); an opened store whose query does not prepare gives dbOpenFailed("SQL prepare failed"); dbOpenFailed arises only in these two cases; reading a store never gives a keychain error or dbCopyFailed |
| CookieStore.NoCookiesExactly | ClaudeUsageApp/BrowserCookieReader.swift:243-265 | an opened store gives noCookiesInDB exactly when no row has both a name and a blob |
| CookieStore.SuccessExactly | ClaudeUsageApp/BrowserCookieReader.swift:238-274 | an opened store succeeds exactly when some row supplies each cookie; the values are those of the last supplying rows |
| CookieStore.DecryptionFailedCounts | ClaudeUsageApp/BrowserCookieReader.swift:243-268 | when every row is counted and none decrypts, the error is decryptionFailed with the number of rows |
| CookieStore.AllCounted | ClaudeUsageApp/BrowserCookieReader.swift:243-248 | when every row is named and non-empty, all rows are counted |
| CookieStore.OnlyOrgIsMissingSession | ClaudeUsageApp/BrowserCookieReader.swift:263-274 | with an organisation cookie and no session cookie, the error is missingCookie(hasSession: false, hasOrg: true) |
| CookieStore.ReadCookies | ClaudeUsageApp/BrowserCookieReader.swift:186-275 | one store is opened (logged), and the result is the outcome its access and rows determine |
| BrowserCookieReader.FindProfiles | ClaudeUsageApp/BrowserCookieReader.swift:108-129 | the appending loop returns exactly the specified profile list |
| BrowserCookieReader.AppendProfileStore | ClaudeUsageApp/BrowserCookieReader.swift:120-125 | one listing entry appends its `Cookies` path exactly when the entry starts with "Profile " and the path exists, and appends nothing otherwise |
| BrowserCookieReader.ProfilePathsExist | ClaudeUsageApp/BrowserCookieReader.swift:108-129 | every store `ProfilePaths` (what `findProfiles` returns) lists exists |
| BrowserCookieReader.ProfileStoresMembers | ClaudeUsageApp/BrowserCookieReader.swift:116-126 | a path is listed iff it is `<dir>/<item>/Cookies` for a listed `Profile ` directory whose store exists |
| BrowserCookieReader.ProfilePathsMembers | ClaudeUsageApp/BrowserCookieReader.swift:108-129 | with a missing root nothing is listed; otherwise a path is listed iff it is the existing Default store or an existing profile store |
| BrowserCookieReader.DefaultComesFirst | ClaudeUsageApp/BrowserCookieReader.swift:111-115 | an existing `Default/Cookies` is the first path |
| BrowserCookieReader.Detect | ClaudeUsageApp/BrowserCookieReader.swift:68-85 | every detected browser has at least one cookie store, and there are no more detected browsers than registry entries |
| BrowserCookieReader.DetectBrowsers | ClaudeUsageApp/BrowserCookieReader.swift:68-85 | at most one entry per supported browser, each with at least one store, all of which exist |
| BrowserCookieReader.DetectKeepsOrder | ClaudeUsageApp/BrowserCookieReader.swift:68-85 | detection distributes over concatenation of the registry, so registry order is kept |
| BrowserCookieReader.DetectMembers | ClaudeUsageApp/BrowserCookieReader.swift:68-85 | a registry entry is detected iff its user-data directory yields at least one cookie store |
| BrowserCookieReader.DecryptionKey | ClaudeUsageApp/BrowserCookieReader.swift:133-182 | keychainNotFound iff errSecItemNotFound; keychainDenied(service) for errSecAuthFailed or errSecUserCanceled; keychainDenied with the status code for any other status; a key iff the status is success, the password is UTF-8 and PBKDF2 ("saltysalt", 1003 rounds, 16 bytes) succeeds; keychainDenied(service + " (encodage invalide)") for a password that is not UTF-8 and keychainDenied(service + " (PBKDF2 echoue)") for a failed derivation |
| BrowserCookieReader.StatusDetailNamesStatus | ClaudeUsageApp/BrowserCookieReader.swift:154-155 | the detail of an unexpected status carries the status code, read back after `" (code: "` |
| BrowserCookieReader.Keychain.CopyMatching | ClaudeUsageApp/BrowserCookieReader.swift:134-142 | the reply is the keychain's answer for the service, and the lookup is logged |
| BrowserCookieReader.GetDecryptionKey | ClaudeUsageApp/BrowserCookieReader.swift:133-182 | exactly one keychain lookup, and the result is the classified status |
| BrowserCookieReader.ProfilesTried | ClaudeUsageApp/BrowserCookieReader.swift:95-101 | the stores opened are a prefix of the profile list |
| BrowserCookieReader.TryProfilesFailure | ClaudeUsageApp/BrowserCookieReader.swift:87-104 | in `TryProfiles`, the profile loop, with no store the error carried in is returned; when the loop ends in failure, the failure is that of the last store |
| BrowserCookieReader.ImportOutcome | ClaudeUsageApp/BrowserCookieReader.swift:87-104 | a key failure is returned as is; with a key and no profile path the error is noCookiesInDB |
| BrowserCookieReader.ReadProfiles | ClaudeUsageApp/BrowserCookieReader.swift:95-103 | the profile loop returns the first success or the last error, and opens exactly the profiles up to the first success |
| BrowserCookieReader.ImportCookies | ClaudeUsageApp/BrowserCookieReader.swift:87-104 | the key is looked up exactly once; no store is opened after a key failure; otherwise exactly the profiles up to the first success are opened |
| BrowserCookieReader.TryProfilesStep | ClaudeUsageApp/BrowserCookieReader.swift:95-101 | one profile more: a success ends the fallback, and a failure becomes the last error |
| BrowserCookieReader.FirstSuccessWins | ClaudeUsageApp/BrowserCookieReader.swift:95-98 | the first profile that succeeds is the result, and no later profile is opened |
| BrowserCookieReader.AllFailLastError | ClaudeUsageApp/BrowserCookieReader.swift:99-103 | when every profile fails the result is the last profile's error, after all were opened |
| BrowserCookieReader.TryProfilesErrors | ClaudeUsageApp/BrowserCookieReader.swift:93-103 | the profile loop produces no keychain error and no dbCopyFailed |
| BrowserCookieReader.ImportErrors | ClaudeUsageApp/BrowserCookieReader.swift:87-104 | an import never reports dbCopyFailed, and reports a keychain error only when the key derivation fails |
| MenuBar.RawValue | ClaudeUsageApp/MenuBarView.swift:6-10 | each metric's raw value parses back to the metric |
| MenuBar.FromRawValue | ClaudeUsageApp/MenuBarView.swift:6-10 | a string parses iff it is one of the three raw values |
| MenuBar.OrderedPinned | ClaudeUsageApp/MenuBarView.swift:163 | the ordered list holds exactly the pinned metrics, in the order fiveHour, sevenDay, sonnet |
| MenuBar.PinnedFrom | ClaudeUsageApp/MenuBarView.swift:46-52 | without a saved list the set is {fiveHour, sevenDay}; otherwise it holds exactly the metrics whose raw value is saved, invalid strings being dropped |
| MenuBar.PinnedSurvivesRestart | ClaudeUsageApp/MenuBarView.swift:46-52 | restoring a saved set gives back that set |
| MenuBar.Toggled | ClaudeUsageApp/MenuBarView.swift:59-68 | only the toggled metric changes; it is present afterwards iff it was absent or was the only one; a non-empty set stays non-empty |
| MenuBar.ToggleTwice | ClaudeUsageApp/MenuBarView.swift:59-68 | toggling a metric twice restores a non-empty set |
| MenuBar.MetricsText | ClaudeUsageApp/MenuBarView.swift:163-171 | the text is empty iff nothing is pinned, and never starts with a minus sign |
| MenuBar.ReadLabel | ClaudeUsageApp/MenuBarView.swift:19-25 | a label is read exactly when the text starts with a short label and a space: the result is that metric and the text after the space, and no result means no short label opens the text |
| MenuBar.ReadLabelOf | ClaudeUsageApp/MenuBarView.swift:19-25 | each short label (5h, 7d, S) is read back as its metric |
| MenuBar.ReadEntryText | ClaudeUsageApp/MenuBarView.swift:168-169 | one "label pct%" entry is read back as its metric and percentage |
| MenuBar.ReadEntriesStep | ClaudeUsageApp/MenuBarView.swift:164-170 | an entry followed by two spaces and more entries reads back as that entry before the rest |
| MenuBar.MetricsTextReadsBack | ClaudeUsageApp/MenuBarView.swift:163-171 | the menu-bar text reads back as the pinned metrics in order, each with its own percentage |
| MenuBar.SplitSeconds | ClaudeUsageApp/MenuBarView.swift:130-131 | hours and minutes of whole seconds: minutes below 60, rounded down to the minute |
| MenuBar.ResetCountdown | ClaudeUsageApp/MenuBarView.swift:126-137 | no countdown iff no reset date; "now" iff the reset is not in the future |
| MenuBar.ResetCountdownBounds | ClaudeUsageApp/MenuBarView.swift:128-131 | the hours and minutes shown are the time left rounded down to the minute |
| MenuBar.MinutesReadBack | ClaudeUsageApp/MenuBarView.swift:132 | "Mmin" reads back as M minutes |
| MenuBar.HoursReadBack | ClaudeUsageApp/MenuBarView.swift:132 | "Hh Mmin" reads back as H hours M minutes |
| MenuBar.HoursMinutesReadsBack | ClaudeUsageApp/MenuBarView.swift:132 | the hours-and-minutes text reads back as its hours and minutes |
| MenuBar.MenuResetReadsBack | ClaudeUsageApp/MenuBarView.swift:126-137 | `fiveHourReset` reads back as the countdown: empty, "maintenant", or its hours and minutes |
| MenuBar.MenuResetText | ClaudeUsageApp/MenuBarView.swift:126-137 | empty iff there is no reset date; "maintenant" iff the reset is not in the future; otherwise a text that starts with a digit |
| MenuBar.BandOf | ClaudeUsageApp/MenuBarView.swift:206-210 | green iff below 60, red iff 85 or more |
| MenuBar.NsColorForPct | ClaudeUsageApp/MenuBarView.swift:206-210 | the menu-bar colour is the colour of the percentage's band |
| MenuBar.ColorForPct | ClaudeUsageApp/MenuBarView.swift:360-364 | the popover colour is the band colour and agrees with the menu bar's |
| MenuBar.MenuBarViewModel.Pct | ClaudeUsageApp/MenuBarView.swift:74-80 | each metric reads its own percentage field |
| MenuBar.MenuBarViewModel.constructor | ClaudeUsageApp/MenuBarView.swift:46-57 | the pinned set is restored from the saved list (fiveHour and sevenDay without one) and not re-saved; without a cached usage the percentages are 0 and the reset text empty; with one, `loadCached` gives them the values `update(from:)` computes |
| MenuBar.MenuBarViewModel.SetPinned | ClaudeUsageApp/MenuBarView.swift:40-42 | assigning the set saves its raw values |
| MenuBar.MenuBarViewModel.ToggleMetric | ClaudeUsageApp/MenuBarView.swift:59-68 | the set becomes the toggled set, it is saved when it changes, and nothing else changes |
| MenuBar.MenuBarViewModel.Update | ClaudeUsageApp/MenuBarView.swift:121-138 | percentages are the truncated utilisations (0 without a bucket); the reset text is that of the session countdown; nothing else changes |
| MenuBar.MenuBarViewModel.MenuBarText | ClaudeUsageApp/MenuBarView.swift:82-87 | "--" iff there is no configuration or there is an error; otherwise a text that reads back as the pinned metrics with their percentages |
| Settings.RawValue | ClaudeUsageApp/SettingsView.swift:599-611 | each of the four raw values parses back to its metric |
| Settings.FromRawValue | ClaudeUsageApp/SettingsView.swift:599-611 | a string parses iff it is one of the four raw values |
| Settings.PinnedInOrder | ClaudeUsageApp/SettingsView.swift:607-611 | exactly the set toggles, in the order fiveHour, sevenDay, sonnet, pacing; empty iff none is set |
| Settings.Raws | ClaudeUsageApp/SettingsView.swift:607-611 | the raw values of a metric list, position by position |
| Settings.RawsAppend | ClaudeUsageApp/SettingsView.swift:607-611 | raw values of a concatenation are the concatenated raw values |
| Settings.RawsSnoc | ClaudeUsageApp/SettingsView.swift:607-611 | appending a metric appends its raw value |
| Settings.SavedOrder | ClaudeUsageApp/SettingsView.swift:607-612 | the metrics saved are never empty |
| Settings.SavedMetrics | ClaudeUsageApp/SettingsView.swift:606-615 | the saved list is never empty, holds exactly the raw values of the set toggles in the order fiveHour, sevenDay, sonnet, pacing, or only fiveHour when none is set, without repetition |
| Settings.FlagsAfterSave | ClaudeUsageApp/SettingsView.swift:612 | after a save at least one toggle is set; only fiveHour can change, and only when none was set |
| Settings.FlagsFromSaved | ClaudeUsageApp/SettingsView.swift:596-604 | without a saved list nothing changes; otherwise each toggle is set iff its raw value is saved |
| Settings.SaveThenLoad | ClaudeUsageApp/SettingsView.swift:596-615 | loading what a save wrote gives back the toggles the save left |
| Settings.MenuBarAfterSave | ClaudeUsageApp/SettingsView.swift:606-615 | the menu bar, restoring the list the settings saved, pins exactly the set menu-bar metrics (fiveHour when none was set), and pins nothing iff pacing alone was set |
| Settings.MenuBarReadsRaw | ClaudeUsageApp/MenuBarView.swift:48-49 | the menu bar pins a metric iff its raw value is in the saved list |
| Settings.Mirror | ClaudeUsageApp/SettingsView.swift:599-601 | the three menu-bar metrics have the same raw values in the settings window |
| Settings.BrowserIcon | ClaudeUsageApp/SettingsView.swift:554-562 | "globe" iff the browser is not arc, brave or edge; arc, brave and edge get circle.hexagongrid, shield and globe.americas |
| Settings.PortToSave | ClaudeUsageApp/SettingsView.swift:590 | the parsed port when the text is an Int, 1080 otherwise; always an Int |
| Settings.ConfigSurvivesReload | ClaudeUsageApp/SettingsView.swift:566-594 | a stored configuration loaded into the fields (port as `String(port)`) and saved again is unchanged |
| Settings.SettingsState.SavePinnedMetrics | ClaudeUsageApp/SettingsView.swift:606-615 | the saved list is `SavedMetrics` of the toggles, the toggles become `FlagsAfterSave`, and nothing else changes |
| Settings.SettingsState.constructor | ClaudeUsageApp/SettingsView.swift:11-37 | empty credentials and label, not testing or importing, fiveHour and sevenDay pinned, proxy off at 127.0.0.1:1080; Connect enabled, the proxy fields, Refresh and Test disabled |
| Settings.SettingsState.LoadPinnedMetrics | ClaudeUsageApp/SettingsView.swift:596-604 | the toggles become `FlagsFromSaved` of the saved list, and nothing else changes |
| Settings.SettingsState.SaveConfig | ClaudeUsageApp/SettingsView.swift:584-594 | the stored configuration holds the fields and the port fallback |
| Settings.SettingsState.LoadConfig | ClaudeUsageApp/SettingsView.swift:566-582 | a stored configuration fills the fields; an OAuth token selects the OAuth label; otherwise both cookies select the cookie label; otherwise the label is unchanged |
| Settings.SettingsState.TestDisabled | ClaudeUsageApp/SettingsView.swift:180-187 | Test is enabled only when not testing and OAuth or both cookies are present; whenever Refresh is disabled, so is Test |
| Settings.SettingsState.ProxyFieldsDisabled | ClaudeUsageApp/SettingsView.swift:280 | the host and port fields are disabled exactly when a save would store the proxy as off |
| Settings.SettingsState.RefreshDisabled | ClaudeUsageApp/SettingsView.swift:187 | without OAuth, the refresh button is disabled exactly when a save would store an empty session key |
| UsageWidget.SelectView | ClaudeUsageWidget/UsageWidgetView.swift:11-29 | the error iff an error and no usage; the large content iff usage and the large family; the medium content iff usage and any other family; the placeholder iff neither |
| UsageWidget.GaugesCoverPresent | ClaudeUsageWidget/UsageWidgetView.swift:55-77 | there is a gauge for a slot exactly when its bucket is present in the usage |
| UsageWidget.GaugesInOrder | ClaudeUsageWidget/UsageWidgetView.swift:55-77 | the gauges follow the order session, weekly, Sonnet, and each shows its own bucket (the session countdown, or a weekly reset date) |
| UsageWidget.HoursReadBack | ClaudeUsageWidget/UsageWidgetView.swift:222 | "{h}h{mm}" reads back as its hours and minutes |
| UsageWidget.MinutesReadBack | ClaudeUsageWidget/UsageWidgetView.swift:224 | "{m} min" reads back as its minutes |
| UsageWidget.ResetTimeReadsBack | ClaudeUsageWidget/UsageWidgetView.swift:213-226 | the widget's countdown reads back as the menu bar's countdown: empty without a date, "soon" when past, otherwise the same hours and minutes |
| UsageWidget.FormatResetTime | ClaudeUsageWidget/UsageWidgetView.swift:213-226 | empty iff there is no reset date; "soon" iff the reset is not in the future; otherwise a text that starts with a digit |
| UsageWidget.WidgetBandMatchesMenuBar | ClaudeUsageWidget/UsageWidgetView.swift:245-260 | the widget's band of a utilisation equals the menu bar's band of its truncated percentage |
| UsageWidget.RingGradient | ClaudeUsageWidget/UsageWidgetView.swift:244-261 | the ring's colours are those of the utilisation's band |
| UsageWidget.BarGradient | ClaudeUsageWidget/UsageWidgetView.swift:304-321 | the bar's colours are the band's and equal the ring's |
| UsageWidget.AccentColor | ClaudeUsageWidget/UsageWidgetView.swift:323-331 | the accent is the first colour of the band's and the bar's gradient |
| UsageWidget.RingTrim | ClaudeUsageWidget/UsageWidgetView.swift:270 | the trim is at most 1, not negative for non-negative utilisation, and utilisation/100 up to 100 |
| UsageWidget.BarWidth | ClaudeUsageWidget/UsageWidgetView.swift:370 | the bar width is never negative |
| UsageWidget.BarWidthWithinTrack | ClaudeUsageWidget/UsageWidgetView.swift:370 | the bar never exceeds its track, and is proportional to utilisation up to 100 |
| PacingWidget.SelectPacingView | ClaudeUsageWidget/PacingWidgetView.swift:7-16 | the pacing content iff there is usage and the calculator gives a result, which is shown |
| PacingWidget.DeltaText | ClaudeUsageWidget/PacingWidgetView.swift:52-53 | ends with "%"; starts with "+" iff the delta is non-negative; starts with "-" iff the delta is -1 or less |
| PacingWidget.DeltaReadsBack | ClaudeUsageWidget/PacingWidgetView.swift:52-53 | after the optional "+", the text reads back as the truncated delta |
| PacingWidget.ResetLineVisible | ClaudeUsageWidget/PacingWidgetView.swift:69 | shown iff a reset date exists in the future, and then never "soon" |
| PacingWidget.PacingCountdown | ClaudeUsageWidget/PacingWidgetView.swift:99-109 | "soon" iff the reset is not in the future |
| PacingWidget.SplitDays | ClaudeUsageWidget/PacingWidgetView.swift:102-107 | days, hours below 24 and minutes below 60 of whole seconds, rounded down |
| PacingWidget.PacingCountdownBounds | ClaudeUsageWidget/PacingWidgetView.swift:100-108 | days and hours (a day or more), or hours and minutes, are in range and are the time left rounded down |
| PacingWidget.DaysHoursReadBack | ClaudeUsageWidget/PacingWidgetView.swift:105 | "{d}j {h}h" reads back as its days and hours |
| PacingWidget.HoursMinutesReadBack | ClaudeUsageWidget/PacingWidgetView.swift:108 | "{h}h{mm}" reads back as its hours and minutes |
| PacingWidget.ResetDateReadsBack | ClaudeUsageWidget/PacingWidgetView.swift:99-109 | the reset text reads back as the countdown |
| PacingWidget.FormatResetDate | ClaudeUsageWidget/PacingWidgetView.swift:99-109 | "soon" iff the reset is not in the future; otherwise a text that starts with a digit |
| Extensions.TrimHashes | Shared/Extensions.swift:10 | the trimmed text neither starts nor ends with "#" |
| Extensions.TrimHashesOfHashed | Shared/Extensions.swift:10 | trimming removes exactly the hashes on both sides of a text |
| Extensions.ScanHexInt64 | Shared/Extensions.swift:11-13 | the scan fails exactly when no hex digit follows the white space and the optional 0x |
| Extensions.ShiftInAppends | Shared/Extensions.swift:13 | below the saturation point a scanned digit becomes the low nibble and the earlier value shifts up unchanged |
| Extensions.AccumulateStaysMax | Shared/Extensions.swift:13 | once the scan saturates at the largest UInt64, further digits keep it there |
| Extensions.ChannelsOf | Shared/Extensions.swift:15-17 | each channel is at most 255, and red·65536 + green·256 + blue is the value mod 2^24 |
| Extensions.ChannelsLow24 | Shared/Extensions.swift:15-17 | values that agree in their low 24 bits give the same channels |
| Extensions.ColorFromHexDigits | Shared/Extensions.swift:9-20 | "#RRGGBB" (any number of hashes before) gives the channels its three digit pairs spell |
| Extensions.ColorFromHex | Shared/Extensions.swift:9-20 | each channel is a byte; a text with no hex digit after the hashes gives black |
| Extensions.NSCustomUserColor | Shared/Extensions.swift:38-50 | the NSColor accessor reads the same channels as the SwiftUI one |
| Extensions.DefaultIsBlack | Shared/Extensions.swift:30-33 | without a stored colour both accessors give (0, 0, 0) |
| Extensions.RelativeBucket | Shared/Extensions.swift:57-72 | just now iff the interval is not positive; under a minute, minutes, hours and days exactly on their intervals |
| Extensions.RelativeBucketBounds | Shared/Extensions.swift:62-71 | the count is at least 1, below 60 minutes or 24 hours, and is the interval rounded down to its unit |
| Extensions.RelativeReadsBack | Shared/Extensions.swift:57-72 | the French text reads back as its bucket and count |
| Extensions.RelativeFormatted | Shared/Extensions.swift:57-72 | "a l'instant" iff the date is not in the past; "under a minute" iff less than 60 seconds ago; otherwise a text starting "il y a " |
| Text.NatToString | Shared/Extensions.swift:64 | `"\(n)"` for a non-negative count: digits only, without a leading zero |
| Text.ReadNatToString | ClaudeUsageApp/MenuBarView.swift:132 | the decimal text of a count reads back as the count |
| Text.ReadZeroPad2 | ClaudeUsageWidget/UsageWidgetView.swift:222 | `%02d` of a count reads back as the count |
| Text.ReadIntToString | ClaudeUsageWidget/PacingWidgetView.swift:53 | `"\(i)"` of any integer reads back as that integer |
| Text.TruncateToInt | ClaudeUsageApp/MenuBarView.swift:122-124 | `Int(Double)` rounds toward zero: within one of the value, never further from zero |
| Text.ParseIntToString | ClaudeUsageApp/SettingsView.swift:590 | `Int(String(i))` gives back i for any 64-bit i |

## Left out

- User interface: SwiftUI and AppKit layout, fonts, images, gradients drawn, animations, the settings sheets and the popover rows other than their colours. Labels and messages are modelled by their localization keys.
- The division of each channel by 255 and the conversion to floating-point colour components. `Extensions.ChannelsOf` stops at the byte values. `Color.hexString` is left out too, because it is floating point.
- `DateFormatter` with the `fr_FR` locale (the weekday-and-time line of weekly gauges, `formatResetDate` in the usage widget). A weekly gauge carries its reset date, unformatted.
- `ResetDateReadsBack`, `ResetTimeReadsBack`, `MenuResetReadsBack` and the other countdowns assume the seconds left fit in `Int`. `Int(Double)` traps outside its range, and the model does not trap.
- Extensions.ScanHexInt64 approximates Foundation's `Scanner`. Its white space is space, tab, newline and carriage return; Unicode white space is not modelled.
- Extensions.ScanHexInt64: the scanned value is stated digit by digit (`ShiftInAppends`, `AccumulateStaysMax`), not as the digits' unbounded value capped at the largest UInt64, because relating `bv64` and `int` arithmetic is beyond what the solver proves here.
- Settings.SettingsState.ConnectDisabled: the Connect button is disabled while an import runs; the import itself is not modelled, so the predicate has no contract beyond its definition, and the constructor states its initial value.
- The bytes of the CommonCrypto calls: AES-128-CBC with PKCS #7 padding, PBKDF2-HMAC-SHA1, and UTF-8 decoding. They are uninterpreted functions, so nothing about cipher correctness is claimed.
- `SecItemCopyMatching`, SQLite open, prepare and step, the temporary copy of a store and its removal, and `FileManager` are oracles. A failed copy falls back to the `immutable=1` open, as in the source; `dbCopyFailed` is declared but never produced.
- The network client, JSON storage, ISO 8601 parsing, the app's wiring, timers, `Task` and `MainActor` hops, and notifications.
- `PacingCalculator` and `KeychainOAuthReader` are not part of this model. The first is a function parameter; the second is a boolean telling whether a token exists.
- `sessionKeyExpires`, which the settings window reads after an import, is absent from `CookieResult`. The model has no such field.
- `SharedConfig` does not declare the proxy fields that the settings window writes. `Settings.SettingsConfig` has the five fields the window uses.
- `MetricID.pacing` is referenced by the settings window but not declared by the menu bar's enum. The settings model has its own four-case enum, and pacing's raw value is taken to be "pacing".
- MenuBar.MenuBarViewModel.SetPinned: the menu bar saves its set through `Set.map`, whose order Swift leaves unspecified. The model saves in the fixed order fiveHour, sevenDay, sonnet; restoring ignores order, so nothing depends on it.
- The ring trim of the pacing widget and its ideal-marker trigonometry are left out, because they are floating-point drawing.
