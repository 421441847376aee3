# Temple website core, modelled in Dafny

This project models the logic of the Shree Shree Tribhanglalita / Krushnakali
Yogmaya Mandir website, with the rendering left out:

- **The two serverless functions that create records.** `add-donor` and
  `add-devotee` check the HTTP method, take a pooled Postgres client, parse
  the body and reject falsy required fields. They generate `don_<ms>` /
  `dev_<ms>` ids, insert one row, and release the client in `finally`.
- **The client API helpers.** `handleResponse` turns a failed response into a
  thrown error, `getSettings` unwraps the stored `config`, and `downloadCSV`
  builds the CSV text.
- **The browser-local record store.** `readDB`, `writeDB`,
  `initializeDatabase` and the add/get/update accessors keep one database
  document in `localStorage`.
- **The admin pages.**
  - The dashboard computes statistics and the five most recent records.
  - The donor and devotee record pages filter by status and date range, clear
    the filters and export CSV.
  - The settings editor changes contact fields, service cards and slides, and
    adds and removes slides.
  - The login page checks a fixed pair of credentials.
  - The layout frame has the session guard, logout, the sidebar links and
    their highlighting.
- **The public pages.**
  - The home page has the hero carousel and a loading guard.
  - The devotee registration form appears both as a home page section and as
    its own page.
  - The donation page has preset and custom amounts, the amount check, the
    payment order and the record posted after payment.
- **The language context.** It holds the chosen language, offers three
  languages, and falls back from a translation to English to the key.

Pure logic is written as datatypes, functions and lemmas:
`base.dfy`, `js.dfy`, `types.dfy`, `csv.dfy`, `api.dfy`, `seqs.dfy` and the
spec functions in each page module. A React component whose state its event
handlers change is a `class` whose fields are that state, and each
`set…`/`handle…` callback is a method with a `modifies` clause whose `ensures`
ties the new state to the spec functions. Two pieces of state are set once by
a mount effect and never changed by a handler: the dashboard's statistics and
recent lists, and the home page's settings. Those are modelled as the
functions `Dashboard.Load` and `Home.AfterFetch` that compute them. `localStorage` and `sessionStorage` are classes holding maps.
The Postgres pool is a class holding the two tables and a count of clients
that are checked out.

These are parameters rather than modelled behaviour:

- the clock, as milliseconds, plus the calendar date needed for the dashboard
  windows;
- whether a connection, a query or a `localStorage` write succeeds;
- what a fetch returns;
- the payment id the gateway reports;
- the translation tables.

JavaScript semantics that matter are written out explicitly: falsiness,
`parseInt`, `Math.max(0, NaN)`, `JSON.stringify` of strings, `null` and
`undefined`, `String.prototype.split` and `startsWith`.

Points where the code behaves in a way a reader may not expect, modelled as
written:

- CSV cells are `JSON.stringify`-encoded values (`null` becomes `""`, a
  missing field becomes an empty cell), not RFC 4180 quoting.
- The devotee record page's end date is not advanced by a day, unlike the
  donor page's. A registration later on the end date itself is excluded.
- `add-donor` only rejects a falsy amount. A negative amount passes.
- `writeDB` swallows a failed write, and the store stays as it was.

## Model

| member | source | states |
|---|---|---|
| Api.HandleResponse | utils/mockApi.ts:4-10 | a non-2xx response becomes the error "API call failed with status <status>: <body text>"; a 2xx response yields the parsed body |
| Api.FailureNamesStatus | utils/mockApi.ts:5-8 | the thrown message starts with the fixed prefix, the status code parses back from the text after it, and the message ends with the response body |
| Api.GetSettings | utils/mockApi.ts:46-51 | succeeds exactly when the response is 2xx and its body parses, then yields the row's `config` (possibly missing); otherwise carries handleResponse's error |
| Js.DecodeQuoteString | utils/mockApi.ts:71 | a string cell, as JSON.stringify quotes it, decodes back to exactly the original string |
| Js.Stringify | utils/mockApi.ts:71 | JSON.stringify yields nothing exactly for undefined, and quotes strings |
| Js.StringifyHasNoNewline | utils/mockApi.ts:71 | an encoded value never contains a raw newline, so it cannot break a CSV line |
| Csv.Get | utils/mockApi.ts:71 | `row[header]` is undefined when the key is absent, and otherwise is a value stored under that key |
| Csv.GetFirstOccurrence | utils/mockApi.ts:71 | a key that is present yields the value stored at its first occurrence |
| Csv.Cell | utils/mockApi.ts:71 | undefined becomes an empty cell, null becomes `""`, a string becomes its JSON literal that decodes back, and no cell contains a newline |
| Csv.DownloadCsv | utils/mockApi.ts:63-72 | nothing is produced exactly when the data is empty |
| Csv.DownloadCsvLines | utils/mockApi.ts:68-72 | for non-empty data, the text splits on newlines into the header line (the first record's keys joined by commas) followed by one line per record |
| Csv.RowHasNoNewline | utils/mockApi.ts:71 | a data line holds no newline |
| Csv.RowIgnoresUnlistedKey | utils/mockApi.ts:68-71 | a field whose key is not among the first record's keys does not change a record's line |
| ServerlessFunctions.GeneratedIdEncodesClock | netlify/functions/add-donor.ts:20 | a generated id is the prefix followed by digits that parse back to the clock reading |
| ServerlessFunctions.DonorRow | netlify/functions/add-donor.ts:23-27 | the 13 INSERT parameters in column order: the generated id, amount through status from the body as given, the ISO time of the clock reading, then paymentId |
| ServerlessFunctions.DonorRequiredStored | netlify/functions/add-donor.ts:14-27 | every field the missing-field check examines is stored unchanged in the inserted row |
| ServerlessFunctions.ZeroAmountRejected | netlify/functions/add-donor.ts:16-18 | an amount of 0 or the empty string is rejected as missing |
| ServerlessFunctions.NegativeAmountAccepted | netlify/functions/add-donor.ts:16-18 | with the other required fields present, a negative amount passes the check |
| ServerlessFunctions.DonorStatusCodes | netlify/functions/add-donor.ts:5-46 | 405 iff the method is not POST; 400 iff a required field is falsy; 201 iff everything succeeds (body with the generated id); 500 iff connecting, parsing or the INSERT fails |
| ServerlessFunctions.AddDonor | netlify/functions/add-donor.ts:5-46 | answers DonorResponse, inserts exactly one row iff the answer is 201, and leaves no client checked out |
| ServerlessFunctions.DevoteeRow | netlify/functions/add-devotee.ts:23-27 | the 6 INSERT parameters in column order: the generated id, name, email, mobile and birthDate from the body, then the ISO time of the clock reading |
| ServerlessFunctions.DevoteeRequiredStored | netlify/functions/add-devotee.ts:14-27 | every field the missing-field check examines is stored unchanged in the inserted row |
| ServerlessFunctions.DevoteeStatusCodes | netlify/functions/add-devotee.ts:5-46 | the same four status codes, each under its exact condition, for the devotee fields |
| ServerlessFunctions.AddDevotee | netlify/functions/add-devotee.ts:5-46 | answers DevoteeResponse, inserts exactly one row iff the answer is 201, and leaves no client checked out |
| ServerlessFunctions.Postgres.Connect | netlify/functions/add-donor.ts:12 | a successful connect checks out one client |
| ServerlessFunctions.Postgres.Release | netlify/functions/add-donor.ts:41-45 | release returns one client to the pool |
| ServerlessFunctions.Postgres.InsertDonor | netlify/functions/add-donor.ts:28 | a successful query appends the row to the donors table; a failed one changes nothing |
| ServerlessFunctions.Postgres.InsertDevotee | netlify/functions/add-devotee.ts:28 | a successful query appends the row to the devotees table; a failed one changes nothing |
| LocalDatabase.SeedContents | utils/database.ts:40-69 | the seed holds 2 devotees, 4 donations and the default settings with slides numbered 1 to 5 and 3 service cards |
| LocalDatabase.ReadAfterWrite | utils/database.ts:13-36 | readDB returns what writeDB wrote, and every other localStorage key is untouched |
| LocalDatabase.ReadFallsBack | utils/database.ts:13-28 | readDB yields the empty default exactly when no parsable database is stored (or the stored one is that default) |
| LocalDatabase.SettingsReadBack | utils/database.ts:106-111 | after a settings update whose write does not fail, getSettingsDB returns exactly the new document and both lists are kept |
| LocalDatabase.InitializeIdempotent | utils/database.ts:73-82 | once seeded, running the initialisation again, at any clock, changes nothing |
| LocalDatabase.InitializeKeepsExisting | utils/database.ts:73-82 | an existing database is never overwritten; an absent or empty key is filled with the seed |
| LocalDatabase.BrowserStore.ReadDB | utils/database.ts:13-28 | reads the current localStorage as Read does |
| LocalDatabase.BrowserStore.GetDevoteesDB | utils/database.ts:90 | the devotee list of the database readDB finds |
| LocalDatabase.BrowserStore.GetDonorsDB | utils/database.ts:98 | the donation list of the database readDB finds |
| LocalDatabase.BrowserStore.GetSettingsDB | utils/database.ts:106 | the settings document of the database readDB finds |
| LocalDatabase.BrowserStore.WriteDB | utils/database.ts:30-36 | stores the database under its key, or changes nothing when the write fails |
| LocalDatabase.BrowserStore.InitializeDatabase | utils/database.ts:73-82 | writes the seed only when nothing (or the empty string) is stored |
| LocalDatabase.BrowserStore.AddDevoteeDB | utils/database.ts:90-95 | appends the devotee at the end; donors and settings are unchanged; a failed write changes nothing |
| LocalDatabase.BrowserStore.AddDonorDB | utils/database.ts:98-103 | appends the donation at the end; devotees and settings are unchanged; a failed write changes nothing |
| LocalDatabase.BrowserStore.UpdateSettingsDB | utils/database.ts:106-111 | replaces the settings wholesale; both lists are unchanged; a failed write changes nothing |
| Seqs.FilterMultiset | pages/admin/DonorRecordsPage.tsx:34 | `Array.prototype.filter` keeps every copy of a kept element and no copy of a dropped one |
| Seqs.FilterIsSubsequence | pages/admin/DonorRecordsPage.tsx:34 | `Array.prototype.filter` keeps the kept elements in their original order |
| Seqs.SortDescSpec | pages/admin/AdminDashboardPage.tsx:53 | the newest-first sort is ordered by date, descending, and is a permutation of its input |
| Seqs.NewestSpec | pages/admin/AdminDashboardPage.tsx:53-55 | sort-then-slice gives min(n, length) records, newest first, all from the input, and none left out is newer than one kept |
| DonorRecords.FilteredSpec | pages/admin/DonorRecordsPage.tsx:31-45 | the filtered list keeps the original order, and a donation appears, once per copy in the full list, iff it matches the status and lies within [start, end + one day] for each bound that is set |
| DonorRecords.NoFilterShowsAll | pages/admin/DonorRecordsPage.tsx:32-44 | with no filter set the whole list is shown |
| DonorRecords.EndDayIncluded | pages/admin/DonorRecordsPage.tsx:39-43 | a donation up to one day after the end date is shown; a later one is not |
| DonorRecords.DonorObject | netlify/functions/get-donors.ts:12-26 | a donor record has exactly the 13 fields of the API mapping, in order |
| DonorRecords.DonorObjects | netlify/functions/get-donors.ts:12-26 | maps each donation to its record, position by position |
| DonorRecords.DonorCsvLines | pages/admin/DonorRecordsPage.tsx:59 | the donor CSV is a header of the 13 field names followed by one line per shown donation |
| DonorRecords.DonorRecordsPage.constructor | pages/admin/DonorRecordsPage.tsx:7-13 | starts empty, with status 'all', no dates, and loading |
| DonorRecords.DonorRecordsPage.FetchDonors | pages/admin/DonorRecordsPage.tsx:15-29 | a fetched list becomes both the full and the shown list; a failed fetch keeps both; loading ends either way |
| DonorRecords.DonorRecordsPage.SetStatusFilter | pages/admin/DonorRecordsPage.tsx:70 | sets the status filter |
| DonorRecords.DonorRecordsPage.SetStartDate | pages/admin/DonorRecordsPage.tsx:79 | sets the start date |
| DonorRecords.DonorRecordsPage.SetEndDate | pages/admin/DonorRecordsPage.tsx:83 | sets the end date |
| DonorRecords.DonorRecordsPage.HandleFilter | pages/admin/DonorRecordsPage.tsx:31-45 | the chain of filters shows exactly Filtered(all, status, start, end) |
| DonorRecords.DonorRecordsPage.ClearFilters | pages/admin/DonorRecordsPage.tsx:47-52 | resets all three filters and shows the full list |
| DonorRecords.DonorRecordsPage.DownloadCsvText | pages/admin/DonorRecordsPage.tsx:59 | exports the shown list, and nothing exactly when that list is empty |
| DevoteeRecords.FilteredSpec | pages/admin/DevoteeRecordsPage.tsx:12-21 | the filtered list keeps order, and a devotee appears, once per copy in the full list, iff the registration lies within [start, end] for each bound that is set |
| DevoteeRecords.NoFilterShowsAll | pages/admin/DevoteeRecordsPage.tsx:13-19 | with no dates set the whole list is shown |
| DevoteeRecords.EndDayExcluded | pages/admin/DevoteeRecordsPage.tsx:17-19 | a registration at or before the end instant is shown; one later on the same day is not |
| DevoteeRecords.DevoteeObject | netlify/functions/get-devotees.ts:12-19 | a devotee record has exactly the 6 fields of the API mapping |
| DevoteeRecords.DevoteeObjects | netlify/functions/get-devotees.ts:12-19 | maps each devotee to its record, position by position |
| DevoteeRecords.DevoteeCsvLines | pages/admin/DevoteeRecordsPage.tsx:34 | the devotee CSV is a header of the 6 field names followed by one line per shown devotee |
| DevoteeRecords.DevoteeRecordsPage.constructor | pages/admin/DevoteeRecordsPage.tsx:7-10 | the fetched list is shown in full, with no dates set |
| DevoteeRecords.DevoteeRecordsPage.SetStartDate | pages/admin/DevoteeRecordsPage.tsx:45 | sets the start date |
| DevoteeRecords.DevoteeRecordsPage.SetEndDate | pages/admin/DevoteeRecordsPage.tsx:49 | sets the end date |
| DevoteeRecords.DevoteeRecordsPage.HandleFilter | pages/admin/DevoteeRecordsPage.tsx:12-21 | shows exactly Filtered(all, start, end) |
| DevoteeRecords.DevoteeRecordsPage.ClearFilters | pages/admin/DevoteeRecordsPage.tsx:23-27 | clears both dates and shows the full list |
| DevoteeRecords.DevoteeRecordsPage.DownloadCsvText | pages/admin/DevoteeRecordsPage.tsx:34 | exports the shown list, and nothing exactly when that list is empty |
| Dashboard.MonthLength | pages/admin/AdminDashboardPage.tsx:34-36 | every month of the Gregorian calendar has 28 to 31 days |
| Dashboard.WindowsOrdered | pages/admin/AdminDashboardPage.tsx:34-36 | start of year <= start of month <= start of today, and today starts (day - 1) days after the month |
| Dashboard.SumOfFilterAtMost | pages/admin/AdminDashboardPage.tsx:42-44 | with non-negative amounts, the sum over any filtered part is between 0 and the total |
| Dashboard.LaterWindowSmaller | pages/admin/AdminDashboardPage.tsx:38-44 | a window that starts later holds a subset of the donations and a sum no larger |
| Dashboard.StatsSpec | pages/admin/AdminDashboardPage.tsx:32-51 | for any amounts, each total is the sum of the successful donations in its window and todayCount is how many fall today; with non-negative amounts, 0 <= today <= month <= year |
| Dashboard.UnsuccessfulIgnored | pages/admin/AdminDashboardPage.tsx:32 | a pending or failed donation, wherever it sits in the list, changes no statistic |
| Dashboard.RecentDonationsSpec | pages/admin/AdminDashboardPage.tsx:53 | at most five donations, newest first, drawn from all statuses, none left out newer than one shown |
| Dashboard.RecentDevoteesSpec | pages/admin/AdminDashboardPage.tsx:55 | at most five registrations, newest first, none left out newer than one shown |
| Dashboard.Load | pages/admin/AdminDashboardPage.tsx:25-63 | a failed fetch leaves zero statistics and empty lists; otherwise the statistics and both recent lists are computed from the fetched data |
| SettingsEditor.ContactChanged | pages/admin/AdminSettingsPage.tsx:21-30 | the named contact field takes the value; the other contact fields, the slides, the cards and the logo are unchanged |
| SettingsEditor.CardChanged | pages/admin/AdminSettingsPage.tsx:32-37 | only the named field of the card at the index changes; the other cards and sections are unchanged |
| SettingsEditor.SlideChanged | pages/admin/AdminSettingsPage.tsx:67-73 | only the named text field of the slide at the index changes, its id and image are kept, and the other slides and sections are unchanged |
| SettingsEditor.SlideAdded | pages/admin/AdminSettingsPage.tsx:75-92 | the slides are the old ones followed by one placeholder slide whose id is the clock reading |
| SettingsEditor.SlidesAfterRemove | pages/admin/AdminSettingsPage.tsx:94-102 | with one slide or none nothing changes; otherwise exactly the slides with a different id remain, each as many times as before |
| SettingsEditor.RemoveKeepsOrder | pages/admin/AdminSettingsPage.tsx:100 | removal keeps the remaining slides in order |
| SettingsEditor.RemoveOneOfDistinct | pages/admin/AdminSettingsPage.tsx:94-102 | when slide ids are distinct, removing a slide drops exactly that one and at least one slide remains |
| SettingsEditor.SharedIdEmptiesList | pages/admin/AdminSettingsPage.tsx:96-101 | the one-slide guard counts slides, not ids: two slides that share an id are both removed, leaving none |
| SettingsEditor.SettingsPage.constructor | pages/admin/AdminSettingsPage.tsx:7 | starts without settings (the page shows its loading text) |
| SettingsEditor.SettingsPage.LoadSettings | pages/admin/AdminSettingsPage.tsx:10-12 | holds the loaded settings |
| SettingsEditor.SettingsPage.HandleContactChange | pages/admin/AdminSettingsPage.tsx:21-30 | without settings nothing changes; otherwise the settings become ContactChanged |
| SettingsEditor.SettingsPage.HandleServiceCardChange | pages/admin/AdminSettingsPage.tsx:32-37 | without settings nothing changes; otherwise the settings become CardChanged |
| SettingsEditor.SettingsPage.HandleLandingPageChange | pages/admin/AdminSettingsPage.tsx:67-73 | without settings nothing changes; otherwise the settings become SlideChanged |
| SettingsEditor.SettingsPage.HandleAddSlide | pages/admin/AdminSettingsPage.tsx:75-92 | without settings nothing changes; otherwise the settings become SlideAdded |
| SettingsEditor.SettingsPage.HandleRemoveSlide | pages/admin/AdminSettingsPage.tsx:94-102 | refuses and changes nothing when one slide or none is left; otherwise the slides become SlidesAfterRemove |
| SettingsEditor.SettingsPage.HandleSubmit | pages/admin/AdminSettingsPage.tsx:104-110 | sends the current settings, with the "<section> settings updated successfully!" notice exactly when there are settings |
| Registration.WithField | pages/DevoteeRegistrationPage.tsx:18-23 | the named field takes the value and the other three are unchanged |
| Registration.FilledFormAccepted | netlify/functions/add-devotee.ts:16-18 | a submitted form passes add-devotee's check iff name, email, mobile and birth date are all non-empty |
| Registration.RegistrationForm.constructor | pages/DevoteeRegistrationPage.tsx:9-16 | starts with four empty fields, not submitting |
| Registration.RegistrationForm.HandleChange | pages/HomePage.tsx:135-137 | the form becomes WithField of the old form |
| Registration.RegistrationForm.StartSubmit | pages/DevoteeRegistrationPage.tsx:26-29 | marks the form as submitting and sends the form as it stands |
| Registration.RegistrationForm.FinishSubmit | pages/DevoteeRegistrationPage.tsx:29-37 | on success, thanks the registrant by name and empties the form; on failure, shows the failure notice and keeps the form; submitting ends either way |
| Registration.RegistrationForm.HandleSubmit | pages/HomePage.tsx:139-152 | the whole submit: sends the old form, then the outcome of FinishSubmit |
| Home.AdvanceInRange | pages/HomePage.tsx:11-13 | however often the carousel advances, the index stays within the slides |
| Home.AdvanceCompose | pages/HomePage.tsx:11-20 | advancing a steps and then b steps is advancing a + b steps |
| Home.AdvanceWithin | pages/HomePage.tsx:11-13 | before the last slide, advancing k times moves k slides on |
| Home.FullCycleReturns | pages/HomePage.tsx:11-20 | advancing once per slide returns to the starting slide |
| Home.HeroCarousel.constructor | pages/HomePage.tsx:8-9 | starts at the first slide |
| Home.HeroCarousel.GoToNext | pages/HomePage.tsx:11-13 | moves to (index + 1) mod the number of slides and stays in range |
| Home.HeroCarousel.GoToSlide | pages/HomePage.tsx:22-24 | a dot selects exactly its slide |
| Home.Render | pages/HomePage.tsx:251-264 | the sections are shown iff the settings are there with a present, non-empty slide list, and the carousel gets exactly those slides |
| Home.AfterFetch | pages/HomePage.tsx:233-249 | a fetched document replaces the page's slides and cards; a null document or a failed fetch leaves them as they were |
| Home.FetchedSlidesShown | pages/HomePage.tsx:236-257 | a fetched document with slides is rendered with exactly its slides and cards |
| Donate.WithField | pages/DonateUsPage.tsx:58-60 | the named field takes the value; the other fields and the amount are unchanged |
| Donate.CustomAmount | pages/DonateUsPage.tsx:54-57 | empty text gives an empty amount; text that parses gives max(0, the parsed number); anything else gives NaN |
| Donate.CustomAmountOfNumber | pages/DonateUsPage.tsx:55-56 | typing a whole number gives that amount, and the box shows the same digits |
| Donate.CustomAmountClampsNegative | pages/DonateUsPage.tsx:55 | a negative number becomes 0 |
| Donate.AmountRejectedIffNotPositive | pages/DonateUsPage.tsx:114 | the amount check rejects exactly the amounts that are not positive numbers (empty and NaN included) |
| Donate.MerchantName | pages/DonateUsPage.tsx:68 | the first line of the temple address, or the fallback name when that line is empty; never empty |
| Donate.OrderFor | pages/DonateUsPage.tsx:63-94 | the gateway charges the amount times 100 (paise), prefilled with the donor's name, email and mobile |
| Donate.PaidRecordAccepted | pages/DonateUsPage.tsx:71-77 | a record posted for a form that passed the amount check passes add-donor's check iff name, email and mobile are filled in |
| Donate.DonationPage.constructor | pages/DonateUsPage.tsx:19-32 | starts with amount 500, empty fields, the first state in the list, an empty and closed custom box |
| Donate.DonationPage.HandleAmountClick | pages/DonateUsPage.tsx:41-45 | a preset sets that amount and clears and closes the custom box |
| Donate.DonationPage.HandleCustomClick | pages/DonateUsPage.tsx:47-50 | opens the custom box and blanks the amount |
| Donate.DonationPage.HandleCustomAmountChange | pages/DonateUsPage.tsx:52-57 | the amount and the box text become CustomAmount of the typed text |
| Donate.DonationPage.HandleChange | pages/DonateUsPage.tsx:58-60 | the form becomes WithField of the old form |
| Donate.DonationPage.HandleSubmit | pages/DonateUsPage.tsx:112-119 | opens the gateway iff the amount is a positive number, with OrderFor of the form; otherwise shows the invalid-amount notice |
| Donate.DonationPage.PaymentSucceeded | pages/DonateUsPage.tsx:71-82 | posts the submitted form as Successful with the payment id, and resets the form and the custom box |
| Donate.DonationPage.PaymentFailed | pages/DonateUsPage.tsx:98-107 | posts the submitted form as Failed with the payment id, and leaves the form as it is |
| AdminLogin.SessionStore.GetItem | pages/AdminLoginPage.tsx:19 | getItem returns the stored string iff the key is present |
| AdminLogin.SessionStore.SetItem | pages/AdminLoginPage.tsx:19 | setItem stores the value under the key and changes no other key |
| AdminLogin.SessionStore.RemoveItem | components/admin/AdminLayout.tsx:25 | removeItem deletes the key and changes no other key |
| AdminLogin.AdminLoginPage.SetEmail | pages/AdminLoginPage.tsx:45 | the email input sets the email |
| AdminLogin.AdminLoginPage.SetPassword | pages/AdminLoginPage.tsx:56 | the password input sets the password |
| AdminLogin.AdminLoginPage.constructor | pages/AdminLoginPage.tsx:7-9 | starts with empty email, password and error |
| AdminLogin.AdminLoginPage.HandleSubmit | pages/AdminLoginPage.tsx:11-24 | exactly the admin email and password set the session flag to 'true' and go to the dashboard with no error; anything else shows the error and leaves the session as it was |
| AdminLayout.GuardRedirect | components/admin/AdminLayout.tsx:17-22 | the visitor is sent to the login page iff the session flag is not exactly 'true' (an absent flag included) |
| AdminLayout.HrefsPrefixFree | components/admin/AdminLayout.tsx:5-10 | no sidebar link's href is a prefix of another's |
| AdminLayout.AtMostOneActive | components/admin/AdminLayout.tsx:44 | whatever the path, at most one sidebar link is highlighted |
| AdminLayout.AdminLayoutFrame.constructor | components/admin/AdminLayout.tsx:13 | the sidebar starts closed |
| AdminLayout.AdminLayoutFrame.CheckAuthentication | components/admin/AdminLayout.tsx:17-22 | redirects as GuardRedirect says, reading the session only |
| AdminLayout.AdminLayoutFrame.HandleLogout | components/admin/AdminLayout.tsx:24-27 | removes only the session flag and goes to the login page, after which the guard turns every admin page away |
| AdminLayout.AdminLayoutFrame.OpenSidebar | components/admin/AdminLayout.tsx:64 | the menu button opens the sidebar |
| AdminLayout.AdminLayoutFrame.FollowLink | components/admin/AdminLayout.tsx:40-43 | following a link goes to its href and closes the sidebar |
| AdminLayout.AdminLayoutFrame.CloseSidebar | components/admin/AdminLayout.tsx:76 | tapping the overlay closes the sidebar and navigates nowhere |
| Language.OfferedLanguages | contexts/LanguageContext.tsx:23-27 | exactly English, Hindi and Marathi are offered |
| Language.Translate | contexts/LanguageContext.tsx:32-34 | a language without a table throws; with both the chosen and the English table present, a text is always found |
| Language.TranslateFallback | contexts/LanguageContext.tsx:33 | the chosen language's text if non-empty, else the English text if non-empty, else the key |
| Language.TranslateNeverBlank | contexts/LanguageContext.tsx:33 | for a non-empty key the shown text is never blank and is one of the three candidates |
| Language.LanguageProvider.constructor | contexts/LanguageContext.tsx:30 | starts in English |
| Language.LanguageProvider.SetLanguage | contexts/LanguageContext.tsx:30 | switches the current language |
| Language.LanguageProvider.T | contexts/LanguageContext.tsx:32-34 | `t(key)` in the current language always succeeds when its table and the English one exist |
| Language.UseLanguage | contexts/LanguageContext.tsx:43-49 | outside a provider it throws the fixed error; inside one it yields that provider |

## Left out

- Rendering, routing and DOM work are not modelled: the markup, `alert` texts
  other than the notices above, `window.scrollTo`, and the Blob and link that
  download the CSV (the model produces the CSV text).
- `fetch` itself is left out. Each API call's outcome is a `Result` parameter,
  and a call's response is the `Api.Response` value.
- The payment gateway widget and its script are left out. Its two callbacks
  are methods that take the reported payment id. The alerts they show are not
  modelled.
- The seven-second `setInterval` that calls `goToNext` is not modelled as a
  timer. `Home.Advance` stands for any number of its ticks.
- Image uploads (`handleLogoChange`, `handleLandingPageImageChange`, the
  FileReader base64 conversion) are left out: they depend on browser file I/O.
  The `activeTab` state of the settings page only selects what is displayed,
  so it is left out too.
- The settings editor's `updateSettings` call is modelled only as the value
  sent. Its network round trip is not.
- The `get-donors`, `get-devotees`, `get-settings` and `update-settings`
  serverless functions are represented only by the records they return
  (`DonorRecords.DonorObject`, `DevoteeRecords.DevoteeObject`,
  `Api.SettingsRow`). Their pooled-client handling is not modelled. As
  written, `get-devotees` and `update-settings` do not release the client on
  every path.
- Floating point is not modelled. Amounts are integers, so `parseFloat` in
  `get-donors` and `Number(...)` in the dashboard sums are the identity on
  them.
- Dates are integer milliseconds since the epoch. The time zone is not
  modelled. The dashboard takes the current civil date (year, month, day) as
  input instead of deriving it from the clock. The seed's "two months ago"
  date is a parameter.
- `JSON.stringify`/`JSON.parse` of the whole database in `localStorage` are
  taken as inverse to each other. A stored entry is a database, empty, or
  unparsable.
- Some pages call `getDevotees()` and `getSettings()` without `await`. The
  devotee records page does this in `useMemo`, and the donation and settings
  pages in `useState`/`useEffect`. The model gives those pages the resolved
  value.
- The translation tables (`utils/translations.ts`) are not part of this
  model. They are a parameter.
- Concurrent requests and interleaved writes to the store are not modelled.
- JSON values are `Js.JsValue`: undefined, null, booleans, integers, NaN and
  strings. A request-body field holding a JSON object, an array or a
  fractional number cannot be represented. Such a field is truthy, so add-donor
  and add-devotee would accept it and insert it as given.
- The dashboard's `isLoading` flag is not modelled: it only chooses what is
  displayed while the mount effect runs.
- Language.Translate: reading a key of a missing table is modelled as an
  error, not as JavaScript's `TypeError` object.
