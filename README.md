# Agil Fleet front ends: a Dafny model

Agil Fleet is a fleet-management system with two front ends. The first is the
manager and admin console, an Angular application under `src/app`. It manages
clients, vehicles, drivers and refuellings, shows dashboards and raises
consumption alerts. The second is the driver app, an Ionic application under
`driver-app/src/app`. With it a driver records refuellings, reports anomalies,
browses the history and reads local alerts.

This project models the logic of both front ends in Dafny and proves
properties of that model. There is one module per source file:

- A component or service whose fields change becomes a `class`.
  - Its fields are those of the component.
  - Each synchronous step is a method with a `modifies` clause and an `ensures`
    that gives the whole new state.
  - An HTTP subscription is split in two: the method that builds the request,
    and the `next` or `error` callback as a method that takes the answer.
- Pure decisions the code makes are functions, with lemmas about them. Examples
  are form validation, search and sort, anomaly detection, error texts and
  message parsing.

Anything the model cannot see is passed in as a parameter:

- the clock: `today`, `now`, `time`, `currentYear`;
- `new Date(s).getTime()`;
- `toFixed`/number formatting: `numText`, `fixed1`;
- `toISOString`: `iso`;
- JWT decoding: `decode`;
- the `confirm` dialog: `confirmed`;
- the state of `localStorage`.

The toasts of the modelled operations are returned as out-parameters, carried
by the rejection a request method returns, or collected in a `toasts` sequence.
Callbacks that are not modelled are listed under "Left out". An
absent string (`null`/`undefined`) is `""`, and an absent number is `None`.

Helper modules:

- `Common`: `Option`, `Result`, filtering, `FirstIndex`, `String.trim`,
  `split`, `toLowerCase`.
- `Numbers`: the decimal text of integers, and `match(/\d+/)`.
- `Patterns`: the e-mail and phone regular expressions.
- `Sorting`: `Array.prototype.sort` as a stable sort.
- `Http`: error responses and their bodies.
- `AdminModels`: the console's records.

## Model

| member | source | states |
|---|---|---|
| FuelService.Candidates | driver-app/src/app/services/fuel.ts:71-73 | the history entries kept for the comparison are never more than the history |
| FuelService.CandidatesProperties | driver-app/src/app/services/fuel.ts:71-73 | every candidate is of the new entry's vehicle with a truthy odometer; candidates are newest first by `getTime`; they are exactly the matching history entries, as a multiset |
| FuelService.CheckAnomalies | driver-app/src/app/services/fuel.ts:67-68 | an entry without a positive odometer reading raises nothing |
| FuelService.AtMostOneAnomaly | driver-app/src/app/services/fuel.ts:77-89 | one save raises at most one anomaly, because a decrease and a rate alert exclude each other |
| FuelService.DecreaseIff | driver-app/src/app/services/fuel.ts:75-79 | an odometer-decrease alert is raised exactly when the second-newest candidate has a reading above the new one, and it carries both readings |
| FuelService.HighConsumptionIff | driver-app/src/app/services/fuel.ts:81-87 | a rate alert is raised exactly when the previous reading is truthy, the distance is positive and more than 20 L were used per 100 km (strictly) |
| FuelService.RateExceedsIff | driver-app/src/app/services/fuel.ts:84-85 | for a positive distance the rate test `(q/km)*100 > 20` is the division-free `q*100 > 20*km` |
| FuelService.DecreaseMessageWords | driver-app/src/app/services/fuel.ts:78 | the decrease message splits on spaces into its six words, with both readings as decimal text |
| FuelService.DecreaseMessageInjective | driver-app/src/app/services/fuel.ts:78 | two equal decrease messages come from the same pair of readings |
| FuelService.MarkRead | driver-app/src/app/services/fuel.ts:106-113 | marking alert i read keeps the length, sets only its read flag, keeps its text and date and leaves every other alert unchanged |
| FuelService.MarkReadIdempotent | driver-app/src/app/services/fuel.ts:106-113 | marking the same alert read twice is the same as once |
| FuelService.Alerts | driver-app/src/app/services/fuel.ts:94-99 | one alert per anomaly, each unread and dated today |
| FuelService.AlertStore.constructor | driver-app/src/app/services/fuel.ts:40-42 | the alerts are those stored under `agilfleet-alerts`, or none |
| FuelService.AlertStore.AddAlert | driver-app/src/app/services/fuel.ts:94-103 | a new unread alert dated today goes first, and storage is rewritten with the list |
| FuelService.AlertStore.MarkAsRead | driver-app/src/app/services/fuel.ts:106-113 | an index in range marks that alert read and saves; an index out of range changes nothing |
| FuelService.AlertsAppend | driver-app/src/app/services/fuel.ts:77-86 | raising the alerts of one list of anomalies and then another puts the second list's alerts in front of the first's |
| FuelService.AlertStore.CheckAnomaliesAfterSave | driver-app/src/app/services/fuel.ts:67-91 | the alerts of the detected anomalies go before the old ones; storage receives the new list exactly when an anomaly was found and is otherwise untouched; an entry without a positive reading leaves alerts and storage alone |
| FuelService.AlertStore.SaveFuel | driver-app/src/app/services/fuel.ts:45-49 | anomalies are checked, alerted and stored only once the back end has registered the entry; otherwise alerts and storage stay |
| VehicleManagement.VehicleFormRules | src/app/vehicle-management/vehicle-management.component.ts:107-132 | each field's error is present exactly when its rule fails (plate of 3 or more, brand and model of 2 or more, a known fuel type, a year from 1900 to the current year, a positive client); the form is valid exactly when all rules hold |
| VehicleManagement.EmptyFormFailsAll | src/app/vehicle-management/vehicle-management.component.ts:211-225 | the reset form fails all six rules |
| VehicleManagement.ViewUnfiltered | src/app/vehicle-management/vehicle-management.component.ts:242-265 | with no query and no order the view is the whole list in order |
| VehicleManagement.ViewMatches | src/app/vehicle-management/vehicle-management.component.ts:245-253 | with a query, every shown vehicle matches the lower-cased query and every matching vehicle is shown; unsorted, the view is the filter in list order |
| VehicleManagement.ViewSorted | src/app/vehicle-management/vehicle-management.component.ts:255-263 | with an order, the view is a permutation of the search result, ordered by lower-cased plate (ascending or descending) in code-point order standing for `localeCompare`, with equal plates in list order |
| VehicleManagement.VehicleManagementPage.constructor | src/app/vehicle-management/vehicle-management.component.ts:31-49 | the page starts empty, with an empty form, no order and no errors |
| VehicleManagement.VehicleManagementPage.ValidateForm | src/app/vehicle-management/vehicle-management.component.ts:107-133 | the errors shown are the form's rule failures, the result is true exactly when there are none, and a failure toasts the fix-the-form text |
| VehicleManagement.VehicleManagementPage.CreateOrUpdateVehicle | src/app/vehicle-management/vehicle-management.component.ts:135-166 | nothing is sent, and the fix-the-form text toasted, exactly when a rule fails; otherwise the payload is the form's plate, brand, model, fuel type and year with the selected client id, carrying the vehicle's id and sent as an update exactly when editing |
| VehicleManagement.VehicleManagementPage.OnVehiclesLoaded | src/app/vehicle-management/vehicle-management.component.ts:78-80 | the list and the view become the loaded vehicles and the error clears |
| VehicleManagement.VehicleManagementPage.ApplyFiltersAndSearch | src/app/vehicle-management/vehicle-management.component.ts:242-267 | the view is the search-then-sort view of the list |
| VehicleManagement.VehicleManagementPage.SortVehicles | src/app/vehicle-management/vehicle-management.component.ts:231-234 | the order is set and the view recomputed with it |
| VehicleManagement.VehicleManagementPage.ResetFilters | src/app/vehicle-management/vehicle-management.component.ts:236-240 | query and order are cleared and the view is the whole list |
| VehicleManagement.VehicleManagementPage.SelectVehicle | src/app/vehicle-management/vehicle-management.component.ts:184-191 | the vehicle is put in the form for editing, with its client's id selected |
| VehicleManagement.VehicleManagementPage.ResetForm | src/app/vehicle-management/vehicle-management.component.ts:211-225 | the form, the client, the edit flag and the errors are cleared |
| ClientManagement.ClientFormRules | src/app/client-management/client-management.component.ts:72-93 | each field's error is present exactly when its rule fails (name and company of 2 or more, address of 5 or more, the e-mail pattern, an optional phone matching its pattern); valid exactly when all hold |
| ClientManagement.EmptyQueryKeepsAll | src/app/client-management/client-management.component.ts:179-199 | with no query and no order the view is the whole list |
| ClientManagement.ViewMatches | src/app/client-management/client-management.component.ts:180-186 | shown clients are exactly the ones whose name, company, e-mail or phone contains the lower-cased query |
| ClientManagement.ViewSorted | src/app/client-management/client-management.component.ts:188-195 | with an order, the view is a permutation of the search result ordered by `name || companyName` as written (not lower-cased), in code-point order standing for `localeCompare`, equal keys in list order |
| ClientManagement.ClientManagementPage.constructor | src/app/client-management/client-management.component.ts:19-28 | the page starts empty with an empty form |
| ClientManagement.ClientManagementPage.ValidateForm | src/app/client-management/client-management.component.ts:72-94 | the errors shown are the form's rule failures; true exactly when there are none |
| ClientManagement.ClientManagementPage.CreateOrUpdateClient | src/app/client-management/client-management.component.ts:97-120 | an invalid form and an edit without a truthy id are refused with their messages; otherwise an update when editing, else a creation, carrying the form |
| ClientManagement.ClientManagementPage.OnClientsLoaded | src/app/client-management/client-management.component.ts:60-61 | list and view become the loaded clients |
| ClientManagement.ClientManagementPage.SelectClient | src/app/client-management/client-management.component.ts:134-139 | the client is put in the form for editing and errors clear |
| ClientManagement.ClientManagementPage.ResetForm | src/app/client-management/client-management.component.ts:156-161 | form, edit flag and errors are cleared |
| ClientManagement.ClientManagementPage.ApplyFiltersAndSearch | src/app/client-management/client-management.component.ts:179-199 | the view is the search-then-sort view of the list |
| ClientManagement.ClientManagementPage.SortClients | src/app/client-management/client-management.component.ts:168-171 | the order is set and the view recomputed |
| ClientManagement.ClientManagementPage.ResetFilters | src/app/client-management/client-management.component.ts:173-177 | query and order cleared, the view is the whole list |
| Patterns.EmailValidIff | src/app/client-management/client-management.component.ts:74 | the direct test (no white space, one `@` with text before it, a dot with text on both sides after it) accepts exactly the texts `^[^\s@]+@[^\s@]+\.[^\s@]+$` matches |
| Patterns.PhoneValid | src/app/client-management/client-management.component.ts:75 | an accepted phone has 2 to 16 characters, all digits except an optional leading `+`, with a non-zero digit |
| Patterns.PhoneAcceptsDigits | src/app/client-management/client-management.component.ts:75 | every 2- to 15-digit number not starting with 0 is accepted, with or without `+` |
| Patterns.PhoneRejectsLong | src/app/client-management/client-management.component.ts:75 | more than 15 digits are refused, with or without `+` |
| Patterns.PhoneValidIff | src/app/client-management/client-management.component.ts:75 | a phone is accepted exactly when it is a 2- to 15-digit number not starting with 0, alone or after one `+`, which is what `^\+?[1-9]\d{1,14}$` matches |
| Sorting.SortByKeyProperties | src/app/vehicle-management/vehicle-management.component.ts:255-263 | sorting by a string key gives a permutation, ordered by the key in either direction, and stable on each key |
| ManagerDashboard.SumOfAppend | src/app/manager-dashboard/manager-dashboard.component.ts:93-95 | the total over two lists is the sum of their totals |
| ManagerDashboard.SumOfBounds | src/app/manager-dashboard/manager-dashboard.component.ts:93-95 | a total lies between length times the least and length times the greatest term |
| ManagerDashboard.AverageCostBounds | src/app/manager-dashboard/manager-dashboard.component.ts:95 | the average cost lies between the least and the greatest cost (a missing cost counts as 0) |
| ManagerDashboard.AlertsAreFilterMap | src/app/manager-dashboard/manager-dashboard.component.ts:100-103 | one alert per consumption over 100, in order, each the message built from that record |
| ManagerDashboard.AlertsEmptyIff | src/app/manager-dashboard/manager-dashboard.component.ts:100-103 | there are no alerts exactly when no consumption is over 100 |
| ManagerDashboard.AlertMessageWords | src/app/manager-dashboard/manager-dashboard.component.ts:103 | the alert text splits into its words, with the vehicle id at index 5, the quantity at index 7 and the unit at index 8, `kWh` exactly for electric vehicles |
| ManagerDashboard.TypeKeysExact | src/app/manager-dashboard/manager-dashboard.component.ts:121-125 | the counted fuel types are distinct and are exactly the types with a positive count |
| ManagerDashboard.CountByType | src/app/manager-dashboard/manager-dashboard.component.ts:121-122 | the loop counts every fuel type exactly, keyed by type in first-seen order |
| ManagerDashboard.LastMaximum | src/app/manager-dashboard/manager-dashboard.component.ts:123-125 | the reduce returns a key with the greatest count and, among ties, the last one |
| ManagerDashboard.MostCommonFuelType | src/app/manager-dashboard/manager-dashboard.component.ts:117-125 | no records give `Essence`; otherwise a type whose count is at least every other type's (an empty type falls back to `Essence`) |
| ManagerDashboard.MaxOverAllTypes | src/app/manager-dashboard/manager-dashboard.component.ts:123-125 | a key that beats every listed key beats every string |
| ManagerDashboard.ManagerDashboardPage.constructor | src/app/manager-dashboard/manager-dashboard.component.ts:22-35 | the page starts with no data, zero totals and alerts hidden |
| ManagerDashboard.ManagerDashboardPage.OnVehiclesLoaded | src/app/manager-dashboard/manager-dashboard.component.ts:62-63 | the vehicles are kept and counted |
| ManagerDashboard.ManagerDashboardPage.OnLoadError | src/app/manager-dashboard/manager-dashboard.component.ts:66-69 | the error's message is shown and toasted, or the default when it has none |
| ManagerDashboard.ManagerDashboardPage.CalculateStats | src/app/manager-dashboard/manager-dashboard.component.ts:92-97 | with records, the total litres and the average cost are computed; with none, the stats stay |
| ManagerDashboard.ManagerDashboardPage.CheckAlerts | src/app/manager-dashboard/manager-dashboard.component.ts:99-108 | the alerts are those of the records, each is toasted as a warning, and a non-empty batch is sent once |
| ManagerDashboard.ManagerDashboardPage.OnResolved | src/app/manager-dashboard/manager-dashboard.component.ts:109-113 | a resolution clears the alerts and toasts the resolved-by-admin text |
| ManagerDashboard.ManagerDashboardPage.OnConsumptionsLoaded | src/app/manager-dashboard/manager-dashboard.component.ts:76-81 | the records are kept, the stats recomputed, and the alerts checked and toasted |
| ManagerDashboard.ManagerDashboardPage.PredictConsumption | src/app/manager-dashboard/manager-dashboard.component.ts:116-127 | a non-positive distance is refused with the distance text as its toast; otherwise the request carries the distance and, with records, a fuel type of highest count, the last such in key order |
| ManagerDashboard.ManagerDashboardPage.OnPrediction | src/app/manager-dashboard/manager-dashboard.component.ts:128-131 | the prediction is kept and toasted as a prediction text ending in the distance in km |
| ManagerDashboard.ManagerDashboardPage.OnPredictionError | src/app/manager-dashboard/manager-dashboard.component.ts:132-135 | a failed prediction toasts the error prefix followed by the error's message |
| ManagerDashboard.PredictionToast | src/app/manager-dashboard/manager-dashboard.component.ts:130 | the success text starts with the prediction label and ends in km |
| ManagerDashboard.ManagerDashboardPage.ToggleAlerts | src/app/manager-dashboard/manager-dashboard.component.ts:144-146 | the alert panel flips |
| Dashboard.ChartTotal | src/app/dashboard/dashboard.component.ts:113-126 | the four bars add up to the vehicles with a known fuel type, never more than all vehicles |
| Dashboard.RecentClients | src/app/dashboard/dashboard.component.ts:91 | the recent clients are a prefix of the list: five of them, or all when fewer |
| Dashboard.ParseAlertAsWritten | src/app/dashboard/dashboard.component.ts:280-291 | the parser as written: an error exactly below three words; the description is the text before the colon |
| Dashboard.AsWrittenLosesVehicle | src/app/dashboard/dashboard.component.ts:280-291 | on every manager alert the parser as written reads vehicle 0 and type `Inconnu` |
| Dashboard.ParseAlert | src/app/dashboard/dashboard.component.ts:280-291 | the corrected parser: an error exactly below four words |
| Dashboard.ParseAlertRecovers | src/app/dashboard/dashboard.component.ts:280-291 | on every manager alert the corrected parser recovers the vehicle id and the fuel type the unit implies |
| Dashboard.ParseEach | src/app/dashboard/dashboard.component.ts:278-296 | a failed batch fails with the error of its first failing alert |
| Dashboard.ParseEachOneToOne | src/app/dashboard/dashboard.component.ts:278-296 | a batch parses exactly when each alert does, one anomaly per alert in order |
| Dashboard.ParseAlertsAsWritten | src/app/dashboard/dashboard.component.ts:278-296 | as written, a failed batch fails with the error of its first alert the as-written parser refuses |
| Dashboard.ParseAlertsAsWrittenOneToOne | src/app/dashboard/dashboard.component.ts:278-296 | as written, a batch parses exactly when every alert has at least three space-separated pieces, one anomaly per alert in order |
| Dashboard.AsWrittenBatchLosesVehicles | src/app/dashboard/dashboard.component.ts:278-296 | as written, the manager's batch of alerts parses into one anomaly per consumption over 100, each with vehicle 0 and type `Inconnu` |
| Dashboard.ParseAlerts | src/app/dashboard/dashboard.component.ts:278-296 | with the corrected parser, a failed batch fails with the error of its first failing alert |
| Dashboard.ParseAlertsOneToOne | src/app/dashboard/dashboard.component.ts:278-296 | with the corrected parser, a batch parses exactly when each alert does, one anomaly per alert in order |
| Dashboard.PythonToast | src/app/dashboard/dashboard.component.ts:321-326 | the back end's error, else the anomaly warning, else the success text, each naming the vehicle |
| Dashboard.DashboardPage.constructor | src/app/dashboard/dashboard.component.ts:38-62 | the page starts with zero counts, no anomalies and vehicle 1 selected |
| Dashboard.DashboardPage.OnClientsLoaded | src/app/dashboard/dashboard.component.ts:89-92 | the client count, the five recent clients and a cleared error |
| Dashboard.DashboardPage.UpdateVehiclesByFuelType | src/app/dashboard/dashboard.component.ts:113-126 | four bars in fixed order, each the count of its fuel type |
| Dashboard.DashboardPage.OnVehicleStatsLoaded | src/app/dashboard/dashboard.component.ts:101-104 | vehicle count, cleared error and the fuel-type bars |
| Dashboard.DashboardPage.LoadStatistics | src/app/dashboard/dashboard.component.ts:224-227 | the mocked total of 1000 |
| Dashboard.DashboardPage.ExportPdf | src/app/dashboard/dashboard.component.ts:144-149 | the export is refused exactly while clients or vehicles are missing; otherwise the fixed file name |
| Dashboard.DashboardPage.OnAlerts | src/app/dashboard/dashboard.component.ts:277-301 | the batch is read with the as-written parser; a parsed batch replaces the anomalies and toasts either the count or "no anomaly"; a batch that fails to parse changes nothing |
| Dashboard.DashboardPage.ResolveAnomalies | src/app/dashboard/dashboard.component.ts:244-249 | anomalies cleared, one resolution signalled and the simulated-resolution success toasted |
| Dashboard.DashboardPage.LaunchPythonPrediction | src/app/dashboard/dashboard.component.ts:305-314 | a non-positive vehicle id is refused; otherwise the request for it, loading on and the old result cleared |
| Dashboard.DashboardPage.OnPythonResult | src/app/dashboard/dashboard.component.ts:316-326 | the result is kept, loading ends and the toast follows the result |
| Dashboard.DashboardPage.OnPythonError | src/app/dashboard/dashboard.component.ts:328-333 | loading ends, the result holds the unreachable message and the connection error is toasted |
| Dashboard.DashboardPage.HandleError | src/app/dashboard/dashboard.component.ts:338-347 | the error's message or the default is shown; a 403 toasts the forbidden text, anything else the message |
| AuthService.ErrorMessage | src/app/auth.service.ts:215-233 | 0, 401, 403 and 404 each give their fixed text; 400 gives the body's message or the bad-request text; any other status gives the body's message, else the error's message, else the server text; never empty |
| AuthService.FixedMessagesDistinct | src/app/auth.service.ts:215-233 | the four fixed texts tell their statuses apart |
| AuthService.PlainErrorKeepsMessage | src/app/auth.service.ts:104 | an error thrown inside the pipe keeps its message |
| AuthService.AsWrittenHidesStatus | src/app/auth.service.ts:104 | as written, a 401 does not reach the user as the bad-credentials text |
| AuthService.NormaliseLogin | src/app/auth.service.ts:75-81 | a token and an error never both appear; a token exactly when the answer has one; an error only without a token |
| AuthService.CheckLogin | src/app/auth.service.ts:83-103 | a token is kept exactly when the answer has a non-empty one and no error; every other answer is thrown without a status |
| AuthService.LoginResult | src/app/auth.service.ts:71-106 | as written: a token gives it back; every failure reaches the caller as the unbound handler's TypeError |
| AuthService.LoginResultBound | src/app/auth.service.ts:71-106 | with the handler bound: a token gives it back; every failure reaches the caller with the handler's message |
| AuthService.LoginOutcomes | src/app/auth.service.ts:71-106 | as written, a token logs in, and every other answer, a null body and a failed call all fail with the same TypeError text |
| AuthService.LoginOutcomesBound | src/app/auth.service.ts:71-106 | with the handler bound, an error alone fails with its text, a body with neither with the no-token text, a null body with the TypeError's message, a failed call with its status's message |
| AuthService.UserRole | src/app/auth.service.ts:130-146 | a role exactly when a non-empty token decodes to a payload with a non-empty role; removing `ROLE_` never lengthens it |
| AuthService.RouteFor | src/app/auth.service.ts:202-213 | only ADMIN and MANAGER have a page, each its own, and neither is the login page |
| AuthService.RolePrefixStripped | src/app/auth.service.ts:139 | removing every `ROLE_` from `ROLE_x` gives x when x has none |
| AuthService.UserRoleOfPrefixedRole | src/app/auth.service.ts:130-146 | a token whose role claim is `ROLE_x` has role x |
| AuthService.DriverClaim | src/app/auth.service.ts:172 | the driver id is a truthy `sub`, else a truthy `id`, else none |
| AuthService.DriverUser | src/app/auth.service.ts:57-62 | a driver account is named by its e-mail, has the role DRIVER and always a password |
| AuthService.Auth.constructor | src/app/auth.service.ts:40-46 | the token is the stored one |
| AuthService.Auth.IsLoggedIn | src/app/auth.service.ts:117-124 | logged in exactly when a non-empty token is stored, and the token is re-read |
| AuthService.Auth.Logout | src/app/auth.service.ts:108-115 | token, storage and driver id cleared, and the route is the login page |
| AuthService.Auth.GetCurrentDriverId | src/app/auth.service.ts:164-183 | a cached truthy id is returned; otherwise the token's driver claim, cached; never a falsy id |
| AuthService.Auth.RedirectBasedOnRole | src/app/auth.service.ts:202-213 | a known role routes to its page; an unknown one logs out |
| AuthService.Auth.KeepToken | src/app/auth.service.ts:85-95 | the token is kept and stored, the driver id cached (a truthy cached id stays, else the token's claim) and the user routed by role; an unknown role is toasted and logged out |
| AuthService.Auth.Login | src/app/auth.service.ts:71-106 | the result is the as-written pipeline's; a failure changes nothing, not even the toasts, because the handler throws before its toast; a success stores the token, caches the driver id (a truthy cached id stays, else the token's claim) and routes by role |
| AuthService.Auth.LoginBound | src/app/auth.service.ts:71-106 | with the handler bound: the same on success, the driver id cached likewise; a failure changes no session state, toasts the handler's message and returns it |
| ClientService.HandleError | src/app/client.service.ts:87-100 | 403 and 0 give their fixed texts; 400 and 500 give their prefix and the body's message; no status gives the default; never empty |
| ClientService.OtherStatusDefault | src/app/client.service.ts:87-99 | every other status gives the default text |
| ClientService.NormaliseClients | src/app/client.service.ts:30-34 | no body is no clients; otherwise one client per element, a missing id becoming 0 |
| ClientService.WithIds | src/app/client.service.ts:31-34 | every client keeps its fields, with an id |
| ClientService.GetAllClients | src/app/client.service.ts:24-37 | only an HTTP error fails, with the handler's non-empty text; a missing body is no clients; otherwise one client per element |
| ClientService.SaveClientAsWritten | src/app/client.service.ts:40-67 | as written, a save succeeds exactly with a body, which it returns; an HTTP error gives the handler's text and an empty body the default text |
| ClientService.AsWrittenLosesEmptyBody | src/app/client.service.ts:45-50 | as written, an empty answer reaches the caller as the default text, not the empty-body text |
| ClientService.SaveClientOutcomes | src/app/client.service.ts:40-67 | the corrected save succeeds exactly with a body, which it returns, and fails with the empty-body text exactly without one |
| ClientService.SaveClient | src/app/client.service.ts:40-67 | corrected: an HTTP error gives the handler's text, an empty body the empty-body text, a body is returned |
| ClientService.EmptyBodyNotHttpMessage | src/app/client.service.ts:87-99 | no HTTP error is reported with the empty-body text |
| ClientService.DeleteErrorMessage | src/app/client.service.ts:74-83 | an object body's message, else a text body with a prefix, else the default; never empty |
| ClientService.DeleteClient | src/app/client.service.ts:69-84 | a delete succeeds exactly without an HTTP error; a failure carries the delete handler's non-empty text |
| VehicleService.HandleError | src/app/vehicle.service.ts:76-91 | 403 and 0 give their fixed texts; 400 and 500 give their prefix and the body's message; no status gives the default; never empty |
| VehicleService.OtherStatusDefault | src/app/vehicle.service.ts:76-91 | every other status, and a 200 that succeeded, gives the default text |
| VehicleService.UnexpectedAnswer | src/app/vehicle.service.ts:76-91 | a failed 200 reports the unexpected-answer text with the body |
| VehicleService.GetAllVehicles | src/app/vehicle.service.ts:26-36 | a received answer is its body, or no vehicles; only an HTTP error fails |
| VehicleService.VehicleResponseAsWritten | src/app/vehicle.service.ts:38-65 | as written, a save succeeds exactly with a body, which it returns; an HTTP error gives the handler's text and an empty body the default text |
| VehicleService.AsWrittenLosesEmptyBody | src/app/vehicle.service.ts:43-48 | as written, an empty answer reaches the caller as the default text |
| VehicleService.VehicleResponseOutcomes | src/app/vehicle.service.ts:38-65 | the corrected save succeeds exactly with a body and fails with the empty-body text exactly without one |
| VehicleService.VehicleResponse | src/app/vehicle.service.ts:38-65 | corrected: an HTTP error gives the handler's text, an empty body the empty-body text, a body is returned |
| VehicleService.DeleteVehicle | src/app/vehicle.service.ts:67-74 | a delete succeeds exactly without an HTTP error; a failure carries the handler's non-empty text |
| VehicleService.EmptyBodyNotHttpMessage | src/app/vehicle.service.ts:76-91 | no HTTP error is reported with the empty-body text |
| Http.DetailOr | src/app/vehicle.service.ts:76-91 | the message when present, `null` for a null body, the fallback when there is no body |
| FuelConsumptions.RequestBody | src/app/fuel-consumptions/fuel-consumptions.component.ts:124-130 | a sent record has a non-negative quantity and a non-zero vehicle, a missing cost or odometer as 0, and the chosen date in ISO form, or now |
| FuelConsumptions.ChangeFailed | src/app/fuel-consumptions/fuel-consumptions.component.ts:139 | the failure toast is the operation's prefix and the body's text, or the error's message |
| FuelConsumptions.FuelConsumptionsPage.constructor | src/app/fuel-consumptions/fuel-consumptions.component.ts:18-34 | the page starts empty, with the initial form and vehicle 1 selected |
| FuelConsumptions.FuelConsumptionsPage.OnInit | src/app/fuel-consumptions/fuel-consumptions.component.ts:44-58 | loading happens exactly for a logged-in manager; anyone else goes to the login page, with a toast when logged in |
| FuelConsumptions.FuelConsumptionsPage.QueryParams | src/app/fuel-consumptions/fuel-consumptions.component.ts:80-83 | each filter is a query parameter exactly when it is set, with dates in ISO form |
| FuelConsumptions.FuelConsumptionsPage.OnConsumptionsLoaded | src/app/fuel-consumptions/fuel-consumptions.component.ts:86-88 | the records are kept and the error cleared |
| FuelConsumptions.FuelConsumptionsPage.OnConsumptionsFailed | src/app/fuel-consumptions/fuel-consumptions.component.ts:93-94 | the error's message or the default is shown and toasted |
| FuelConsumptions.FuelConsumptionsPage.OnVehiclesLoaded | src/app/fuel-consumptions/fuel-consumptions.component.ts:60-69 | the vehicles are kept |
| FuelConsumptions.FuelConsumptionsPage.OnVehiclesFailed | src/app/fuel-consumptions/fuel-consumptions.component.ts:70 | the vehicle list is emptied |
| FuelConsumptions.FuelConsumptionsPage.DeleteRequest | src/app/fuel-consumptions/fuel-consumptions.component.ts:104-110 | a delete is sent exactly for a truthy id the user confirmed |
| FuelConsumptions.FuelConsumptionsPage.AddRequest | src/app/fuel-consumptions/fuel-consumptions.component.ts:118-130 | a form without a vehicle or with a missing or negative quantity is refused; otherwise its request body is sent |
| FuelConsumptions.FuelConsumptionsPage.UpdateRequest | src/app/fuel-consumptions/fuel-consumptions.component.ts:155-166 | as the add, and also refused without a truthy id under edit; the id goes with the body |
| FuelConsumptions.FuelConsumptionsPage.EditFuelConsumption | src/app/fuel-consumptions/fuel-consumptions.component.ts:144-153 | the first record with the id is copied into the form for editing; an unknown id changes nothing |
| FuelConsumptions.FuelConsumptionsPage.ResetForm | src/app/fuel-consumptions/fuel-consumptions.component.ts:181-185 | the form is the initial one, which the add guard refuses, and the edit ends |
| FuelConsumptions.FuelConsumptionsPage.OnSaved | src/app/fuel-consumptions/fuel-consumptions.component.ts:134-136 | the form resets, the toast names the operation and the list reloads |
| FuelConsumptions.FuelConsumptionsPage.OnSaveFailed | src/app/fuel-consumptions/fuel-consumptions.component.ts:139 | the toast is the operation's failure text |
| FuelConsumptions.FuelConsumptionsPage.OnDeleteAnswered | src/app/fuel-consumptions/fuel-consumptions.component.ts:109-113 | the list reloads exactly after a successful delete, with the matching toast |
| FuelConsumptions.FuelConsumptionsPage.PredictRequest | src/app/fuel-consumptions/fuel-consumptions.component.ts:193-197 | no fuel type or a non-positive distance is refused; otherwise both are sent |
| FuelConsumptions.FuelConsumptionsPage.OnPrediction | src/app/fuel-consumptions/fuel-consumptions.component.ts:200-201 | the prediction is kept and toasted in kWh for electric vehicles, in litres otherwise |
| FuelConsumptions.PredictFailed | src/app/fuel-consumptions/fuel-consumptions.component.ts:204 | the failure toast holds the status and its text, then the body's text (an object body as `[object Object]`), or else the error's message |
| FuelConsumptions.FuelConsumptionsPage.OnPredictionError | src/app/fuel-consumptions/fuel-consumptions.component.ts:203-206 | a failed prediction only toasts the failure text of its error and status text |
| FuelConsumptions.FuelConsumptionsPage.LaunchPythonPrediction | src/app/fuel-consumptions/fuel-consumptions.component.ts:210-217 | a non-positive vehicle id is refused; otherwise the request for it |
| FuelConsumptions.FuelConsumptionsPage.OnPythonResult | src/app/fuel-consumptions/fuel-consumptions.component.ts:221-231 | the result is kept, loading ends, and the toast is the dashboard's one |
| FuelConsumptions.FuelConsumptionsPage.OnPythonError | src/app/fuel-consumptions/fuel-consumptions.component.ts:233-236 | loading ends, the result holds the unreachable text and the connection toast shows |
| Stats.Bars | src/app/stats/stats.component.ts:113-116 | one bar per statistic, in order |
| Stats.BarNames | src/app/stats/stats.component.ts:113-116 | a bar is named `Inconnu` exactly when its vehicle id is falsy, and distinct ids give distinct names |
| Stats.StatsComponent.constructor | src/app/stats/stats.component.ts:84-96 | no data yet, loading |
| Stats.StatsComponent.OnVehicleStatsLoaded | src/app/stats/stats.component.ts:113-117 | the bars are built and loading ends |
| Stats.StatsComponent.OnGlobalStatsLoaded | src/app/stats/stats.component.ts:131-132 | the global stats are kept and loading ends |
| Stats.StatsComponent.OnStatsFailed | src/app/stats/stats.component.ts:121-123 | the failing request's text is shown and toasted, and loading ends |
| Login.LoginPath | src/app/login/login.component.ts:45 | the page for the role, or the dashboard for any other role |
| Login.LoginComponent.constructor | src/app/login/login.component.ts:16-19 | empty credentials and messages; the stored token is kept |
| Login.LoginComponent.OnSubmit | src/app/login/login.component.ts:23-33 | nothing while a submission runs; missing fields are refused; otherwise the credentials are sent, with the messages cleared |
| Login.LoginComponent.OnLoginNext | src/app/login/login.component.ts:36-58 | a token is success, is kept and starts the redirect timer; otherwise the answer's error, when it has one, is shown |
| Login.LoginComponent.OnRedirectTimer | src/app/login/login.component.ts:41-55 | while logged in, the path for the role; otherwise the not-stored text |
| Login.LoginComponent.OnRedirectFailed | src/app/login/login.component.ts:48-51 | the redirect-failure text is shown |
| Login.LoginComponent.OnLoginError | src/app/login/login.component.ts:60-62 | the submission ends and the error's message, or the failure text, is shown |
| Register.RegisterError | src/app/register/register.component.ts:54-55 | the body's message, else the error's message, else the fixed text; never empty |
| Register.RegisterComponent.constructor | src/app/register/register.component.ts:17 | an empty user with role `ROLE_USER` |
| Register.RegisterComponent.OnSubmit | src/app/register/register.component.ts:28-45 | a request exactly when no submission runs, the three fields are set and the e-mail matches the pattern; each refusal has its message |
| Register.RegisterComponent.OnRegistered | src/app/register/register.component.ts:49-50 | the submission ends with the answer's message or the fixed success text |
| Register.RegisterComponent.OnRegisterFailed | src/app/register/register.component.ts:54-55 | the submission ends with the error text |
| DriverAlerts.DatePart | driver-app/src/app/alerts/alerts.page.ts:54 | the text before the first `T` is the first field of the split |
| DriverAlerts.DatePartOfStamp | driver-app/src/app/alerts/alerts.page.ts:54 | the date part of `day` + `T` + time is the day |
| DriverAlerts.AnomalyAlertsMap | driver-app/src/app/alerts/alerts.page.ts:51-56 | the alerts are the kept anomalies, each mapped to its alert, in order and one each |
| DriverAlerts.AnomalyAlertsAreFilterMap | driver-app/src/app/alerts/alerts.page.ts:51-56 | one unread alert per present anomaly with a description, in order, dated by its refuel date or else today |
| DriverAlerts.NoDescriptionNoAlert | driver-app/src/app/alerts/alerts.page.ts:52 | anomalies without a description give no alert |
| AlertsPage.AlertsPage.constructor | driver-app/src/app/alerts/alerts.page.ts:24 | no alerts |
| AlertsPage.AlertsPage.OnAlertsLoaded | driver-app/src/app/alerts/alerts.page.ts:47-56 | the alerts are the shown anomalies, all unread |
| AlertsPage.AlertsPage.MarkAlertAsRead | driver-app/src/app/alerts/alerts.page.ts:43-45 | only that alert becomes read |
| DriverDashboard.Records | driver-app/src/app/driver-dashboard/driver-dashboard.page.ts:179-183 | one record per entry with its id, quantity and the date part of its date |
| DriverDashboard.ErrorNotice | driver-app/src/app/driver-dashboard/driver-dashboard.page.ts:117 | the notice of the body's message, else of the error's message |
| DriverDashboard.RemoveFirstSpec | driver-app/src/app/driver-dashboard/driver-dashboard.page.ts:160-163 | deleting removes the first record with the id and keeps the others in order; an absent id changes nothing |
| DriverDashboard.NoonStampDate | driver-app/src/app/driver-dashboard/driver-dashboard.page.ts:99-107 | a day sent at noon comes back as the same day |
| DriverDashboard.DriverDashboardPage.constructor | driver-app/src/app/driver-dashboard/driver-dashboard.page.ts:48-71 | an empty form dated today, vehicle 1, no history or alerts |
| DriverDashboard.DriverDashboardPage.RecordFuelConsumption | driver-app/src/app/driver-dashboard/driver-dashboard.page.ts:95-122 | a valid form with a positive quantity is sent dated at noon; otherwise a notice |
| DriverDashboard.DriverDashboardPage.OnFuelRecorded | driver-app/src/app/driver-dashboard/driver-dashboard.page.ts:103-113 | the new record goes first, dated by the answer, the success banner shows, the quantity is set to 0 and the anomalies are reloaded |
| DriverDashboard.DriverDashboardPage.OnRequestFailed | driver-app/src/app/driver-dashboard/driver-dashboard.page.ts:115-118 | the error notice is shown |
| DriverDashboard.DriverDashboardPage.ClearSuccess | driver-app/src/app/driver-dashboard/driver-dashboard.page.ts:110 | the success banner is turned off |
| DriverDashboard.DriverDashboardPage.ReportAnomaly | driver-app/src/app/driver-dashboard/driver-dashboard.page.ts:125-134 | a valid form with a description is reported; otherwise a notice |
| DriverDashboard.DriverDashboardPage.OnAnomalyReported | driver-app/src/app/driver-dashboard/driver-dashboard.page.ts:135-141 | the description is emptied, the type set back to `Panne`, the success banner shows and the anomalies are reloaded |
| DriverDashboard.DriverDashboardPage.ClearAnomalySuccess | driver-app/src/app/driver-dashboard/driver-dashboard.page.ts:137 | the anomaly banner is turned off |
| DriverDashboard.DriverDashboardPage.MarkAlertAsRead | driver-app/src/app/driver-dashboard/driver-dashboard.page.ts:153-155 | only that alert becomes read |
| DriverDashboard.DriverDashboardPage.OnRecordDeleted | driver-app/src/app/driver-dashboard/driver-dashboard.page.ts:157-170 | the first record with the id is removed; an absent id changes nothing |
| DriverDashboard.DriverDashboardPage.OnHistoryLoaded | driver-app/src/app/driver-dashboard/driver-dashboard.page.ts:172-183 | the history is the loaded entries as records |
| DriverDashboard.DriverDashboardPage.OnAnomaliesLoaded | driver-app/src/app/driver-dashboard/driver-dashboard.page.ts:191-200 | the alerts are the shown anomalies |
| HistoryPage.Items | driver-app/src/app/history/history.page.ts:59-64 | one item per record with its id, quantity, cost (0 when missing) and date part |
| HistoryPage.WithoutSpec | driver-app/src/app/history/history.page.ts:78 | deleting removes every item with the id and keeps every other item, in order: the result is the deletion from the part before any cut followed by the deletion from the part after it; deletions commute |
| HistoryPage.WithoutCommutes | driver-app/src/app/history/history.page.ts:78 | two deletions give the same list in either order |
| HistoryPage.HistoryPage.constructor | driver-app/src/app/history/history.page.ts:33-35 | no history, page 1, vehicle 1 |
| HistoryPage.HistoryPage.LoadHistory | driver-app/src/app/history/history.page.ts:54-57 | the request for the vehicle's current page of twenty |
| HistoryPage.HistoryPage.OnPageLoaded | driver-app/src/app/history/history.page.ts:58-66 | a page's items are appended after the kept history |
| HistoryPage.HistoryPage.LoadMore | driver-app/src/app/history/history.page.ts:70-73 | the next page is requested |
| HistoryPage.HistoryPage.OnRecordDeleted | driver-app/src/app/history/history.page.ts:75-81 | no item with the id remains and every other item stays |
| DriverAuth.DriverAuthService.constructor | driver-app/src/app/services/auth.service.ts:14 | storage as found |
| DriverAuth.DriverAuthService.UserEmail | driver-app/src/app/services/auth.service.ts:38-40 | the stored e-mail, or empty |
| DriverAuth.DriverAuthService.LoginRequest | driver-app/src/app/services/auth.service.ts:16-18 | the e-mail is sent as the user name with the password |
| DriverAuth.DriverAuthService.OnLoginResponse | driver-app/src/app/services/auth.service.ts:21-24 | a token is stored with the e-mail and logs in; no token changes nothing |
| DriverAuth.DriverAuthService.Logout | driver-app/src/app/services/auth.service.ts:29-32 | token and e-mail are removed, and the user is logged out |
| FuelLog.SaveErrorMessage | driver-app/src/app/fuel-log/fuel-log.component.ts:81 | the body's message, else the fixed detail, after `Erreur : ` |
| FuelLog.FuelLogComponent.constructor | driver-app/src/app/fuel-log/fuel-log.component.ts:19-27 | a zero form dated today and no vehicle selected |
| FuelLog.FuelLogComponent.OnVehiclesLoaded | driver-app/src/app/fuel-log/fuel-log.component.ts:44-46 | the vehicles are kept and the first one is selected |
| FuelLog.FuelLogComponent.OnVehiclesFailed | driver-app/src/app/fuel-log/fuel-log.component.ts:49 | the loading error is shown |
| FuelLog.FuelLogComponent.SaveFuel | driver-app/src/app/fuel-log/fuel-log.component.ts:55-69 | no quantity or no vehicle is refused; otherwise the entry is dated at midnight, with cleared inputs sent as 0 |
| FuelLog.FuelLogComponent.ResetForm | driver-app/src/app/fuel-log/fuel-log.component.ts:86-94 | quantity, cost and odometer return to 0 |
| FuelLog.FuelLogComponent.OnSaved | driver-app/src/app/fuel-log/fuel-log.component.ts:72-78 | the form resets and the confirmation alert goes first in the store |
| FuelLog.FuelLogComponent.OnSaveFailed | driver-app/src/app/fuel-log/fuel-log.component.ts:81 | the error text is shown and no alert is added |
| FuelLog.FuelLogComponent.ClearMessage | driver-app/src/app/fuel-log/fuel-log.component.ts:90-93 | the message and banner clear |
| FuelList.RegisteredLast | driver-app/src/app/fuel-list/fuel-list.component.ts:36 | each id maps to the last vehicle that has it |
| FuelList.RegisteredKeys | driver-app/src/app/fuel-list/fuel-list.component.ts:36 | the map's ids are the old ones and the vehicles' ones |
| FuelList.RegisteredUntouched | driver-app/src/app/fuel-list/fuel-list.component.ts:36 | an id no vehicle has keeps its old entry |
| FuelList.DisplayNameSpec | driver-app/src/app/fuel-list/fuel-list.component.ts:50-53 | a known vehicle is named first by its plate; an unknown one by its id, so distinct unknown ids never share a name |
| FuelList.Listed | driver-app/src/app/fuel-list/fuel-list.component.ts:49-55 | one listed entry per entry, keeping all its fields |
| FuelList.FuelListComponent.constructor | driver-app/src/app/fuel-list/fuel-list.component.ts:15-19 | no entries, loading, no vehicles |
| FuelList.FuelListComponent.LoadData | driver-app/src/app/fuel-list/fuel-list.component.ts:31-32 | loading starts |
| FuelList.FuelListComponent.OnVehiclesLoaded | driver-app/src/app/fuel-list/fuel-list.component.ts:35-37 | every vehicle is set under its id, then the entries are requested |
| FuelList.FuelListComponent.OnVehiclesFailed | driver-app/src/app/fuel-list/fuel-list.component.ts:39-42 | loading ends without entries |
| FuelList.FuelListComponent.OnEntriesLoaded | driver-app/src/app/fuel-list/fuel-list.component.ts:48-56 | the entries are listed with their names and loading ends |
| FuelList.FuelListComponent.OnEntriesFailed | driver-app/src/app/fuel-list/fuel-list.component.ts:58-60 | loading ends |
| Chatbot.ApplyChunk | driver-app/src/app/components/chatbot/chatbot.component.ts:56-61 | after a chunk the last message is the bot's |
| Chatbot.ReplayIntoBot | driver-app/src/app/components/chatbot/chatbot.component.ts:56-61 | once the last message is the bot's, all further chunks are appended to it in order |
| Chatbot.StreamedAnswer | driver-app/src/app/components/chatbot/chatbot.component.ts:56-61 | after a user message, a streamed answer is one new bot message holding all the chunks, timed at the first |
| Chatbot.ChatbotComponent.constructor | driver-app/src/app/components/chatbot/chatbot.component.ts:25-27 | a closed panel with the greeting |
| Chatbot.ChatbotComponent.ToggleChat | driver-app/src/app/components/chatbot/chatbot.component.ts:31-34 | the panel flips |
| Chatbot.ChatbotComponent.SendMessage | driver-app/src/app/components/chatbot/chatbot.component.ts:36-53 | blank input changes nothing; otherwise the trimmed question is added, the input cleared and the prompt built around it |
| Chatbot.ChatbotComponent.OnChunk | driver-app/src/app/components/chatbot/chatbot.component.ts:56-61 | the chunk is applied |
| Chatbot.ChatbotComponent.OnStreamError | driver-app/src/app/components/chatbot/chatbot.component.ts:63-65 | one bot message with the fixed error reply |
| DriverManagement.OperationError | src/app/driver-management/driver-management.component.ts:57-58 | a 404 gives the operation's not-found text, else the error's message, else the operation's fallback; never empty |
| DriverManagement.VehiclePlate | src/app/driver-management/driver-management.component.ts:154-158 | the plate of the first vehicle with the id; no id or an unknown one is "not assigned" |
| DriverManagement.DriverManagementPage.constructor | src/app/driver-management/driver-management.component.ts:29-34 | no drivers or vehicles, an empty form |
| DriverManagement.DriverManagementPage.OnDriversLoaded | src/app/driver-management/driver-management.component.ts:53-54 | the drivers are kept |
| DriverManagement.DriverManagementPage.OnVehiclesLoaded | src/app/driver-management/driver-management.component.ts:68-69 | the vehicles are kept |
| DriverManagement.DriverManagementPage.OnRequestFailed | src/app/driver-management/driver-management.component.ts:57-59 | the operation's error text is shown and toasted |
| DriverManagement.DriverManagementPage.AddDriverRequest | src/app/driver-management/driver-management.component.ts:81-92 | an invalid form or a password under six characters once trimmed is refused with its toast; otherwise the form is sent |
| DriverManagement.DriverManagementPage.OnDriverAdded | src/app/driver-management/driver-management.component.ts:93-98 | the driver is appended, `newDriver` set to the empty request and the account toasted |
| DriverManagement.DriverManagementPage.EditDriver | src/app/driver-management/driver-management.component.ts:110-112 | the driver is under edit |
| DriverManagement.DriverManagementPage.UpdateDriverRequest | src/app/driver-management/driver-management.component.ts:114-116 | only a driver under edit with a truthy id is sent |
| DriverManagement.DriverManagementPage.OnDriverUpdated | src/app/driver-management/driver-management.component.ts:117-124 | the first driver with the id is replaced and the edit ends; others stay; an unknown id changes nothing |
| DriverManagement.DriverManagementPage.DeleteDriverRequest | src/app/driver-management/driver-management.component.ts:136-138 | a delete is sent exactly when confirmed |
| DriverManagement.DriverManagementPage.OnDriverDeleted | src/app/driver-management/driver-management.component.ts:139-142 | no driver with the id remains, every other driver stays in order, and a toast shows |

## Left out

- HTTP transport, headers, interceptors and route guards are not modelled. Each request is a returned value, and each answer or error is an argument of its callback.
- `getUsername` and `getAuthHeaders` are not modelled: they only read storage.
- Change detection, `console` output, and the timers' delays are not modelled. A timer's effect is its own method.
- The PDF export's drawing and the charts' rendering are left out. They are foreign libraries. Only the export's guard and file name are kept.
- The camera, the Gemini chatbot service (`driver-app/src/app/services/chatbot.ts`) and the chat's network stream are left out. They are foreign code. The stream is modelled by its chunks.
- Floating-point arithmetic is modelled as exact `real` arithmetic. `toFixed`, `parseFloat` and number-to-text conversion are parameters.
- `JSON.stringify` of an error body and `JSON.parse` of stored alerts are not modelled in detail. The model does not cover JSON escapes or a corrupt store.
- `Object.entries` and the key order of integer-like keys are not modelled. The most-common fuel type is among the tied maxima, the last in key order. JavaScript would move integer-like keys first.
- The dashboard's `resolved$` subscription is not modelled. It is only counted as one signal per resolution, and the subscription it leaks is not kept.
- Aliasing of the alert objects is not modelled. The alerts are values: marking one read does not touch other lists holding the same object.
- AlertsPage.AlertsPage.MarkAlertAsRead: takes the alert's index rather than the alert object.
- DriverDashboard.DriverDashboardPage.MarkAlertAsRead: takes the alert's index rather than the alert object.
- FuelConsumptions.FuelConsumptionsPage.EditFuelConsumption: the spread's extra `vehicle: {id}` field is not modelled.
- FuelService.Alerts: each alert is dated with the current day, as the code does, not with the refuelling's date.
- FuelService.AlertStore.CheckAnomaliesAfterSave: the quantity in the rate message is passed to the formatter as a number. Its text is not modelled.
- Common.Lower: `toLowerCase` is modelled for ASCII letters only. Other letters keep their case, so the query `élec` does not find `Électrique`, while JavaScript would find it.
- Sorting.LexLe: `localeCompare` is modelled as code-point order, not as the locale's collation. Upper case sorts before lower case and accented letters after `z`, so `Bob` goes before `alice`, while `localeCompare` puts `alice` first.
- Sorting.SortByKeyProperties: the order it proves is Sorting.LexLe's code-point order, not the collation `localeCompare` uses.
- VehicleManagement.ViewMatches: the match uses Common.Lower, so it is exact only for ASCII text.
- VehicleManagement.ViewSorted: the plates are ordered by Sorting.LexLe after Common.Lower, not by `localeCompare`.
- VehicleManagement.VehicleManagementPage.ApplyFiltersAndSearch: the search and the sort inherit the ASCII case folding and the code-point order.
- VehicleManagement.VehicleManagementPage.SortVehicles: the sort inherits the code-point order.
- ClientManagement.ViewMatches: the match uses Common.Lower, so it is exact only for ASCII text.
- ClientManagement.ViewSorted: the names are ordered by Sorting.LexLe, not by `localeCompare`.
- ClientManagement.ClientManagementPage.ApplyFiltersAndSearch: the search and the sort inherit the ASCII case folding and the code-point order.
- ClientManagement.ClientManagementPage.SortClients: the sort inherits the code-point order.
- Form-length rules count characters, while JavaScript's `length` counts UTF-16 code units. A character outside the Basic Multilingual Plane counts once here and twice there.
- Dashboard.ParseAlertAsWritten: like Dashboard.ParseAlert, it does not parse the quantity that the dashboard reads from the alert with `replace(/[kWh|litres]/g, '')` and `parseFloat`.
- The vehicle and client pages' role check in `ngOnInit`, their load, save and delete callbacks and their confirmation dialogs are not modelled, except the list-load success. These callbacks toast, reset the form and reload the list. The client page's PDF export and system-status toasts are left out too.
- The JWT decoding library is a parameter `decode`. A token it cannot decode gives `None`.
- The login component stores its token under `jwtToken`, while the service reads `token`. The model keeps both as the code has them.
- The service throws unless the answer has a token, so the component's `response.error` branch cannot be reached through the service. The model keeps that branch for an answer given directly.
- After an unknown role the service logs out, so the login's redirect timer then reports that the token was not stored.
- AuthService.DriverClaim: the `sub` and `id` claims are numbers in the model. A text `sub`, such as a user name, would be truthy and cached as the driver id by the program; the model cannot express it.
- Register.RegisterComponent.OnRegisterFailed: takes the error as given. The service's `register` passes `this.handleError` unbound (src/app/auth.service.ts:51), like `login`, so through the service the component only ever receives the TypeError, whose `error` is undefined, and shows that TypeError's message. The register pipeline itself is not modelled.
- ClientService.NormaliseClients: a missing id becomes 0, but the program replaces only an `undefined` id. A `null` id stays `null` there; the model has no null id and gives 0.
- DriverDashboard.DriverDashboardPage.OnFuelRecorded: `form.resetForm()` (driver-app/src/app/driver-dashboard/driver-dashboard.page.ts:112) is not modelled. The form's fields keep the values the code assigns just before the call; the null that Angular's reset writes back through the bound inputs, to the quantity, the date and the vehicle, is not captured.
- DriverDashboard.DriverDashboardPage.OnAnomalyReported: `form.resetForm()` (driver-app/src/app/driver-dashboard/driver-dashboard.page.ts:140) is not modelled. The description and type keep the values the code assigns just before the call; the null the reset writes back through the bound inputs is not captured.
- DriverManagement.DriverManagementPage.OnDriverAdded: `this.addForm.resetForm()` (src/app/driver-management/driver-management.component.ts:96) is not modelled. `newDriver` is the empty request the code assigns just before the call; the null the reset writes back to its bound fields is not captured.

## Findings

| source | as written | input that shows it | evidently intended | confidence | as-written member | corrected member |
|---|---|---|---|---|---|---|
| src/app/dashboard/dashboard.component.ts:280-291 | the alert parser reads the vehicle id from word 1 and the unit from word 2 of the manager's message | any manager alert, e.g. `Consommation anormale pour le véhicule 7 : 120 litres`, reads `anormale` and `pour` | the vehicle id and fuel type named in the message | not executed | Dashboard.AsWrittenLosesVehicle | Dashboard.ParseAlertRecovers |
| src/app/auth.service.ts:104 | `catchError(this.handleError)` passes the method unbound, so `this.toastr` fails inside it and a TypeError replaces the message | a login answered with status 401 | the bad-credentials message for a 401 | not executed | AuthService.AsWrittenHidesStatus | AuthService.LoginOutcomesBound |
| src/app/client.service.ts:45-50 | the "empty answer" error thrown in `map` is caught by `handleError`, which has no status for it and reports the generic text | a create or update answered 200 with an empty body | the empty-answer message reaches the caller | not executed | ClientService.AsWrittenLosesEmptyBody | ClientService.SaveClientOutcomes |
| src/app/vehicle.service.ts:43-48 | the same for vehicles: the empty-answer error becomes the generic text | a create or update answered 200 with an empty body | the empty-answer message reaches the caller | not executed | VehicleService.AsWrittenLosesEmptyBody | VehicleService.VehicleResponseOutcomes |
