# Stadium booking front end — Dafny model

This project models the browser-side logic of a football-stadium booking site
in Dafny and proves properties of that model. It covers three scripts:

- `dashboard.js`: the management dashboard for admins, owners and employees.
- `index.js`: the public stadium catalogue.
- `auth.js`: the login and signup pages.

Each module follows one concern of those scripts:

- `Base`: `Option`, `Result`, and an in-order subsequence relation.
- `Text`: the string operations the scripts take from the browser.
  - Substring search (`includes`) as a scan, proved equal to "occurs at some position".
  - ASCII `toLowerCase`.
  - Decimal rendering of integers.
  - The leading-digits reading of `parseInt`.
- `DashboardRoles`: the dashboard's role rules.
  - The permission table.
  - The role read from the page path.
  - Which loaders a role starts, and the endpoint each loader uses.
  - The status, payment, role and delete-message lookup tables with their fallbacks.
- `DashboardBookings`: the booking data.
  - The quick statistics.
  - The per-day counts behind the bookings chart.
  - The action buttons of a booking row.
- `DashboardFormat`: the two global helpers, `escapeHtml` and `formatTimeDisplay`.
- `DashboardSystem`: the `StadiumManagementSystem` object.
  - The lists its loaders overwrite.
  - The error log kept in storage and capped at 100 entries.
  - API error handling.
  - The delete confirmation.
- `Catalog`: the catalogue page.
  - The four-stage stadium filter.
  - Star ratings and availability badges.
  - The favourites list in storage.
  - Time-slot selection, the booking modal and the booking form.
  - The night-mode theme.
- `Auth`: the auth page handlers.
  - The role-to-landing-page redirect.
  - The storage effects of a login.
  - The signup password check.
  - The redirect of a visitor who is already signed in.

Code that updates state in place is modelled by classes:

- The dashboard object, `StadiumManagementSystem`.
- The catalogue page's globals, gathered in `CatalogPage`.
- `localStorage`, as `LocalStorage`.

Their methods carry `modifies` clauses and state the whole new state. Loops and
step-by-step updates become methods, each proved against its specification:

- The filter passes are proved equal to a reference function, the single-pass
  filter `Matching`.
- The star loop and the action-button list are proved against quantified
  postconditions that say which icon or button sits at each position.

Decisions and lookups are functions.

Conventions:

- Money is whole currency units (`int`).
- Star ratings are tenths of a star (4.7 is 47).
- A backend reply is a `Result` parameter, so every success path and every failure path is modelled.
- The current date, the confirm dialog and timestamps are also parameters.

## Model

| member | source | states |
|---|---|---|
| DashboardRoles.HasPermission | dashboard.js:94-103 | As written: no user role, or a required role outside admin/owner/employee, gives false. Otherwise a user passes iff their rank is positive and at most the required role's rank. |
| DashboardRoles.HierarchyNests | dashboard.js:96-100 | The table nests: admitted for employee implies admitted for owner, which implies admitted for admin. |
| DashboardRoles.HasPermissionInverted | dashboard.js:94-103 | Counterexample: an employee passes the admin check, and an admin fails the employee check. |
| DashboardRoles.HasPermissionIntended | dashboard.js:94-103 | Corrected check: a user passes iff the required role is a managing role and the user ranks at least as high. No user role gives false. |
| DashboardRoles.IntendedPermissionProperties | dashboard.js:94-103 | Under the corrected check:<br>- every managing role may open its own page;<br>- an admin may open every page;<br>- only an admin opens the admin page;<br>- a player opens none. |
| DashboardRoles.RoleFromPath | dashboard.js:1316-1321 | The page role is admin iff the path contains "admin". Otherwise it is owner iff the path contains "owner", then employee likewise, and otherwise player. |
| DashboardRoles.RoleFromPathNamed | dashboard.js:1316-1321 | A path that contains a managing role's name anywhere yields a managing role at least that senior. |
| DashboardRoles.InitialLoaders | dashboard.js:153-171 | The first three loaders are stadiums, bookings and payments. Only an admin starts users, pending managers and activity logs. Only an admin or owner starts time slots and notifications. No loader is started twice. |
| DashboardRoles.StadiumsEndpoint | dashboard.js:175 | The admin stadiums endpoint is used iff the role is admin; every other role gets the owner endpoint. |
| DashboardRoles.PaymentsEndpoint | dashboard.js:205 | The admin payments endpoint is used iff the role is admin; every other role gets the owner endpoint. |
| DashboardRoles.BookingsEndpoint | dashboard.js:187-190 | A managing role gets "/api/<role>/bookings"; any other role gets the generic "/api/bookings". |
| DashboardRoles.TimeSlotsEndpoint | dashboard.js:224-229 | The generic endpoint is used iff the id or the date is falsy (missing, 0 or empty). Otherwise the endpoint starts with "/api/time-slots/" and is longer than that prefix. |
| DashboardRoles.TimeSlotsEndpointReadBack | dashboard.js:224-229 | In the per-stadium endpoint, `parseInt` of the text after "/api/time-slots/" gives the stadium id back, negative ids included. The endpoint ends with "?date=" followed by the date. |
| DashboardRoles.StatusBadgeClass | dashboard.js:650-662 | The neutral "bg-secondary" badge is used iff the status is not in the table; every badge is one of five classes. |
| DashboardRoles.StatusText | dashboard.js:664-676 | A status is shown as its own code iff it is not in the table. |
| DashboardRoles.PaymentStatusText | dashboard.js:678-686 | A payment status is shown as its own code iff it is not in the table. |
| DashboardRoles.RoleText | dashboard.js:688-696 | A role is shown as its own code iff it is not in the table. |
| DashboardRoles.BadgeAndTextAgree | dashboard.js:650-676 | A status gets the neutral badge exactly when its label falls back to the raw code. |
| DashboardRoles.DeleteMessage | dashboard.js:883-891 | The stadium and user messages contain the name in quotes. Any type other than stadium, user, booking or payment gets the generic question. |
| DashboardBookings.CalculateQuickStats | dashboard.js:740-752 | The total equals the number of bookings. The pending and today counts never exceed it. The active-stadium count never exceeds the number of stadiums. |
| DashboardBookings.CountStatus | dashboard.js:749 | A status count never exceeds the number of bookings. |
| DashboardBookings.CountOnDate | dashboard.js:750 | A date count never exceeds the number of bookings. |
| DashboardBookings.CountActive | dashboard.js:748 | The active-stadium count never exceeds the number of stadiums. |
| DashboardBookings.CountStatusIsMultiplicity | dashboard.js:749 | The pending count, and any status count, is the multiplicity of that status among the bookings. |
| DashboardBookings.DistinctStatusCountsBounded | dashboard.js:749 | Counts of two different statuses add up to at most the number of bookings. |
| DashboardBookings.RevenueAppend | dashboard.js:745-747 | Revenue is additive over concatenated booking lists. |
| DashboardBookings.RevenueSingle | dashboard.js:745-747 | A confirmed or completed booking adds its amount, 0 when missing; any other booking adds nothing. |
| DashboardBookings.RevenueOfUnpaid | dashboard.js:745-747 | Bookings that are neither confirmed nor completed add no revenue. |
| DashboardBookings.BookingsByDate | dashboard.js:1028-1032 | One count per date, each at most the number of bookings. |
| DashboardBookings.ChartTotalBounded | dashboard.js:1028-1032 | Over distinct dates, the chart's counts add up to at most the number of bookings. |
| DashboardBookings.ChartAgreesWithStats | dashboard.js:1028-1032 | The chart's count for a date equals the "today" statistic computed with that date as today. |
| DashboardBookings.GetBookingActions | dashboard.js:833-869 | "Details" is always last. Confirm appears iff the role is not employee, the booking is pending and its deposit is a present 0. Cancel appears iff the role is not employee and the booking is confirmed or pending. Check-in appears iff the role is employee and the booking is booked_confirmed. Buttons come in rendering order, with no repeats. |
| DashboardFormat.EscapeChainIsPerCharacter | dashboard.js:1345-1350 | Because `&` is replaced first, the five chained replacements equal encoding each character on its own: no entity produced by one step is re-escaped by a later one. |
| DashboardFormat.EscapeHtml | dashboard.js:1343-1351 | null or undefined gives "". Otherwise the five chained replacements, `&` first, equal replacing each special character by its own entity. |
| DashboardFormat.EscapedHasNoMarkup | dashboard.js:1343-1351 | Escaped text contains no `<`, `>`, `"` or `'`. |
| DashboardFormat.EscapedPlainText | dashboard.js:1343-1351 | Text with none of the five special characters is unchanged. |
| DashboardFormat.UnescapeEscaped | dashboard.js:1343-1351 | Decoding the five entities recovers the original text. |
| DashboardFormat.EscapeHtmlInjective | dashboard.js:1343-1351 | Different strings never escape to the same text. |
| DashboardFormat.DisplayHour | dashboard.js:1339 | For a non-negative hour, the display hour lies in 1..12 and agrees with the hour modulo 12. It is 12 iff the hour is a multiple of 12. |
| DashboardFormat.Suffix | dashboard.js:1338 | The evening suffix is used iff the hour is a number of at least 12. |
| DashboardFormat.TimeText | dashboard.js:1336-1340 | For a parsed hour, `parseInt` of the text gives the display hour back. For `NaN` the text opens with "NaN". The text ends with a space and the evening suffix iff the hour is at least 12. |
| DashboardFormat.FormatTimeDisplay | dashboard.js:1335-1341 | The same guarantees for a raw time string, its hour field read by `parseInt`. |
| DashboardFormat.TimeTextOfHour | dashboard.js:1336-1340 | For a non-negative hour the text is the decimal display hour, a colon, the minute text, a space, and the suffix for the half of the day. |
| DashboardFormat.TwelveHourRoundTrip | dashboard.js:1335-1341 | For every hour 0..23, the display hour and suffix give the hour back. |
| DashboardFormat.FormatClockTime | dashboard.js:1335-1341 | For "hh:mm" with hh all digits, the result is the 12-hour display hour, a colon, mm unchanged, a space, and the suffix for the half of the day. |
| DashboardSystem.AppendLog | dashboard.js:1165-1170 | The new entry is last. The log grows by one until it reaches 100 entries, then keeps its length. It is always a suffix of the old log plus the entry. |
| DashboardSystem.AppendLogBounded | dashboard.js:1165-1170 | A log of at most 100 entries stays at most 100 entries. |
| DashboardSystem.AppendLogKeepsOrder | dashboard.js:1165-1170 | All old entries except possibly the oldest keep their order, ending just before the new entry. |
| DashboardSystem.UserMessage | dashboard.js:1150-1160 | The alert text is never empty. The error's own message is shown iff it is non-empty and not a fetch TypeError. Otherwise the connection message or the generic one is shown, and a fetch TypeError always gets the connection message. |
| DashboardSystem.NetworkMessageOmitsFetch | dashboard.js:1155-1156 | The connection message does not contain "fetch", so the raw text of a fetch failure is never what is shown. |
| DashboardSystem.StadiumManagementSystem.LogError | dashboard.js:1165-1170 | The stored log becomes the appended and capped log, and stays within 100 entries if it was. |
| DashboardSystem.StadiumManagementSystem.HandleApiError | dashboard.js:1150-1163 | Alerts "❌ " followed by the user message, and logs the context, the raw message and the timestamp. |
| DashboardSystem.StadiumManagementSystem.LoadStadiums | dashboard.js:173-183 | Requests the role's endpoint. A reply replaces the list, with a missing list read as empty. A failure leaves the list unchanged, alerts and logs under "loadStadiums". |
| DashboardSystem.StadiumManagementSystem.LoadBookings | dashboard.js:185-201 | The same as LoadStadiums, for bookings: the role's bookings URL with the query string appended, and failures logged under "loadBookings". |
| DashboardSystem.StadiumManagementSystem.ConfirmDelete | dashboard.js:874-909 | Records the pending action and asks with the type's message. On confirmation it issues the stadium or user delete; every other type issues nothing, and a refusal issues nothing. |
| Catalog.AvailabilityClass | index.js:488-492 | Low iff below 30, medium iff 30 to 59, high iff at least 60. |
| Catalog.AvailabilityText | index.js:495-499 | The limited, medium and available texts on the same thresholds. |
| Catalog.AvailabilityClassMatchesText | index.js:488-499 | Two percentages share a class iff they share a level iff they share a text. |
| Catalog.AvailabilityMonotone | index.js:488-499 | More availability never shows a lower level. |
| Catalog.GenerateStarRating | index.js:469-485 | Five icons. Icon i is full iff i is below the whole part of the rating. It is half iff i equals the whole part and the fraction is at least one half. |
| Catalog.FullStarsAreWholePart | index.js:469-485 | The number of full stars is the whole part of the rating, capped at five. |
| Catalog.ApplyStage | index.js:410-433 | One filter pass keeps, in order, exactly the stadiums its predicate accepts. |
| Catalog.MatchingThenStage | index.js:406-433 | Filtering the survivors of some passes by one more pass equals filtering by all the passes at once. |
| Catalog.MatchingIsExact | index.js:406-433 | The filtered list is an in-order subsequence of the loaded stadiums. It contains exactly those that pass every active filter. |
| Catalog.ActiveStages | index.js:401-433 | At most four passes. With every control empty there is no pass, so the whole list is kept. |
| Catalog.ActiveStagesMeaning | index.js:401-433 | A stadium passes iff each set control holds:<br>- the lower-cased search text occurs in the lower-cased name or location;<br>- the area matches;<br>- the price lies in the band, with 999 meaning no upper bound;<br>- the rating is at least the chosen minimum. |
| Catalog.CatalogPage.FilterStadiums | index.js:400-440 | The passes run one after another and give the single-pass reference result. The warning is shown iff nothing is left. |
| Catalog.RemoveAll | index.js:322 | The id is gone and every copy of every other id stays, in the original order: the result is an in-order subsequence whose multiset is the old one without the id, so its length drops by the id's number of copies. |
| Catalog.Toggled | index.js:318-326 | The id's membership flips, and every other id keeps its membership and its number of copies. A new id is appended once at the end, after the unchanged list. An old one loses all its copies, the rest keeping their order. |
| Catalog.ToggleTwiceRestores | index.js:318-331 | Toggling an id that is not a favourite twice restores the list exactly. |
| Catalog.ToggleTwiceMovesToEnd | index.js:318-331 | Toggling a favourite twice removes all its copies and puts it once at the end. |
| Catalog.CatalogPage.ToggleFavorite | index.js:318-331 | The stored list becomes the toggled list. An absent id is appended at the end, and the result reports whether it was added. |
| Catalog.FindIndex | index.js:253 | Finds the first stadium with the id, or reports that none has it. |
| Catalog.CatalogPage.SelectTimeSlot | index.js:234-244 | Records the stadium and the time. |
| Catalog.CatalogPage.ShowBookingModal | index.js:247-273 | Warns when no time is chosen. Does nothing for an unknown stadium. Otherwise shows the clicked stadium's name and deposit with the chosen time. |
| Catalog.CatalogPage.SubmitBooking | index.js:276-313 | A missing name or phone only warns and changes nothing. A complete form books and clears the chosen stadium and time. |
| Catalog.CatalogPage.InitTheme | index.js:352-377 | Night mode is switched on iff the toggle exists and the stored theme is "night"; otherwise it is unchanged. |
| Catalog.CatalogPage.ToggleTheme | index.js:356-368 | Flips night mode and stores "night" or "light" to match, so a reload restores the same mode. |
| Auth.RedirectToDashboard | auth.js:92-107 | Employee, owner and admin go to "/dashboard.html?view=" followed by the role unchanged. Player and every other role go to "/user.html". |
| Auth.RedirectNamesRole | auth.js:92-107 | The dashboard URL's view parameter reads back as the role. Two roles share a landing page only if they are equal or both lack a dashboard. |
| Auth.OnLoadRedirect | auth.js:183-188 | Redirects iff both token and role are stored and non-empty, and then to the stored role's landing page. |
| Auth.HandleLogin | auth.js:110-137 | Posts the credentials to the login path. On success it stores the token and role, stores or removes the remembered email, touches no other key, and redirects by the returned role; with a non-empty token and role, a reload leads to that same page. On failure it alerts the error and leaves storage unchanged. |
| Auth.HandleSignup | auth.js:140-162 | Mismatched passwords give the mismatch alert and no request. Otherwise it posts name, email and password to the signup path; success goes to the login page, failure alerts the error. |
| Text.ParseIntOfDecimal | dashboard.js:1337 | `parseInt` reads back the decimal rendering of a natural number, whatever non-digit text follows it. |
| Text.ParseIntOfIntString | dashboard.js:1337 | `parseInt` reads back the rendering of any integer, negative ones included, whatever non-digit text follows it. |
| Text.ContainsHasPosition | dashboard.js:1155 | When the `includes` scan reports a match, the searched text occurs at some position. |
| Text.PositionIsContained | index.js:411-412 | When the searched text occurs at some position, the `includes` scan reports it. |
| Text.Lower | index.js:401 | Lower-casing keeps the length, leaves no upper-case ASCII letter, and leaves every other character unchanged. |
| Text.LowerIdempotent | index.js:401-412 | Lower-casing twice is the same as lower-casing once, so the search term and the names are compared in one case. |

## Left out

- The backend calls are not modelled: `apiCall`, `apiRequest`, `fetch`, authentication headers and every CRUD wrapper. A reply is a success-or-error parameter instead; the wrappers are pass-throughs to a server whose code `api.js` is not part of this model.
- All DOM rendering is left out:
  - the HTML templates, modals and toasts beyond which one is shown;
  - chart drawing and `getLast30Days`;
  - the `Intl` date, time and currency formatters.
- The class method `escapeHtml` is left out because it relies on the browser serialising a DOM node. Only the global `escapeHtml` is modelled.
- Timers are left out: the 2-second booking and loading delays, the debounce and auto refresh. The booking form's completion is modelled as happening right after a successful check.
- The parallel loading in `Promise.all` and the order in which replies arrive are left out. Each loader is modelled on its own.
- Only the stadium and booking loaders are modelled as methods. The payments, users, pending-managers, activity-log, time-slot and notification loaders have the same shape. Only their endpoint choice and which role starts them are modelled.
- `updateDashboard`, the placeholder views and the other dashboard views are presentation only and are not modelled.
- Access gating and navigation are outside the modelled core, so these are not modelled:
  - `checkAuthentication` (dashboard.js:65-92), which verifies the token with the backend and sends the visitor to the login or unauthorized page; it is the only caller of `hasPermission`, which is modelled on its own;
  - `redirectToLogin` (dashboard.js:105-109) and `logout` (dashboard.js:1300-1306), which clear the stored session and navigate to the login page;
  - `checkAuthStatus` (index.js:445-455), which reads the stored session to greet a signed-in user.
- Numbers are integers. Ratings are tenths of a star, so floating-point rounding and fractional percentages are not modelled.
- DashboardBookings.CalculateQuickStats: revenue adds integer amounts. JavaScript string concatenation of non-numeric amounts is not modelled.
- Text.ParseInt: leading whitespace and radix prefixes are not modelled.
- Text.Lower: only ASCII letters are lower-cased.
- DashboardFormat.EscapeHtml: non-string arguments, converted by `String(str)`, are not modelled. The argument is a string or absent.
- Catalog.CatalogPage.FilterStadiums: the price choice arrives already split into its two bounds, and the rating as a number of tenths. Parsing the select values is not modelled.
- Catalog: the sort control, banners, featured stadiums, golden slots and the hard-coded sample stadiums of `loadStadiums` are not modelled.
- Catalog.CatalogPage.InitTheme: the icon and title changes are not modelled.
- The first of the two concatenated versions in `auth.js` (lines 1-81) is not modelled. It is an abridged draft whose storage updates are elided; the second, complete version is the one modelled.
- Auth: `showAlert` is modelled only as the alert outcome it produces.
- DashboardRoles.StatusBadgeClass: keys inherited by JavaScript object literals are not modelled. `getStatusBadgeClass('constructor')` returns a function, not "bg-secondary"; the model treats every key outside the table as missing.
- DashboardRoles.StatusText: the same inherited-key gap; a status such as "toString" shows a function, not its code.
- DashboardRoles.PaymentStatusText: the same inherited-key gap.
- DashboardRoles.RoleText: the same inherited-key gap.
- DashboardRoles.DeleteMessage: the same inherited-key gap; a type such as "constructor" gives a function, not the generic question.
- DashboardRoles.HasPermission: the same inherited-key gap; `hasPermission('toString')` throws a TypeError, where the model gives false.

## Findings

| source | as written | input that shows it | evidently intended | confidence | as-written member | corrected member |
|---|---|---|---|---|---|---|
| dashboard.js:94-103 | Each role lists the roles ranked at or below it, and the check asks whether the user's role is in the required role's list. So a user passes when they rank at most as high as the required role. | An employee user on the admin page (`hasPermission('admin')` with role `employee`) passes. An admin user on the employee page is refused. | A user passes when they rank at least as high as the required role. | medium, not executed | DashboardRoles.HasPermissionInverted | DashboardRoles.HasPermissionIntended |
