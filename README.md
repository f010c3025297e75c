# ApexDrive dealership CRM — a Dafny model

This project models the logic of the ApexDrive dealership CRM: a Django
backend (inventory, sales, service lane, customers, finance, analytics,
users) and a React frontend (stock-in, desking, leads, service lane,
calendar, invoices, activity log, dashboard, customer directory, session
and application shell). Every core source file has one Dafny module of the
same name:

| module | source |
|---|---|
| `InventoryModels`, `InventoryViews`, `VinDecoder` | the `inventory` app: vehicle records, the status update that stamps the sold date, the NHTSA row decoder |
| `SalesModels`, `SalesViews` | the `sales` app: a sale marks its vehicle SOLD; a lead turning SOLD sends a thank-you text |
| `ServiceModels`, `ServiceViews`, `AlprAi`, `Sms` | the `service` app: job costs, the plate-scan endpoint, the OCR candidate choice, the text-message outbox |
| `CustomersView`, `FinanceView`, `DashboardView`, `UsersView`, `Analytics` | the project-level views: the merged customer directory, the financial report, the recent-activity feed, team management, the dashboard analytics and the current-user endpoint |
| `Desking`, `LeadsList`, `InventoryList`, `VinDecoderForm`, `PlateScanner`, `ServiceCalendar`, `PrintableInvoice`, `ActivityLog`, `DashboardUi`, `CustomerList`, `AuthContext`, `App` | the React components and the session context |

Two shared modules hold what several files use: `Common` (an `Option`
type, ASCII case mapping, substring search, a stable insertion sort by an
integer key with newest-first and oldest-first orders, `Filter`, `Take`,
subsequences, and `Dict`, an insertion-ordered dictionary standing for a
Python `dict`) and `UiCommon` (JavaScript truthiness, the case-insensitive
`includes` search, `map`-with-condition updates, removal by id and
`Number()` defaults).

Conventions:

- Database tables are sequences of records; a primary key is an `int` id.
- Money in the backend is an integer number of cents. The desking payment
  formula works on `real`.
- Dates are integer timestamps (milliseconds in the frontend) or
  `(year, month)` buckets. The service calendar models the civil calendar
  explicitly: leap years, month lengths and day numbers.
- Where a backend object is read through `hasattr`/`getattr`, its
  attributes are a `map<string, string>` bag, so a missing attribute is a
  modelled case rather than an assumption.
- Server answers, OCR output and decoder rows are method parameters; a
  failed request is `None`. Frontend components are classes whose fields
  are the React state, plus `sent`, the log of write requests issued.
- Methods that loop in the source loop here too, proved against a
  specification function with an invariant of the form
  `acc == Spec(s[..i])`; lemmas then prove what the specification function
  promises.

Where the code and the written design disagree the model follows the code.
The one place this matters: `inventory/models.py` declares `Vehicle.status`
twice. Lines 32-36 allow AVAILABLE, SOLD and RESERVED; line 40 redeclares
the field with `STATUS_CHOICES` (lines 4-9), which adds SERVICE. The later
declaration is the one Django keeps, so SERVICE is a valid vehicle status in
the model.

## Model

| member | source | states |
|---|---|---|
| CustomersView.LeadEvent | crm-backend/auto_crm/auto_crm/customers_view.py:29-42 | a lead's SALE event is dated at the lead's creation and carries the lead's status; its amount is the linked vehicle's selling price when the lead is SOLD with a vehicle, otherwise 0; its description reads "Purchased ..." exactly for a SOLD lead with a vehicle, "Interest in ..." for another lead with a vehicle, and "General Inquiry" without one |
| CustomersView.LeadStepKeys | crm-backend/auto_crm/auto_crm/customers_view.py:14-26 | one lead adds its own phone as a key and no other; a lead with an empty phone adds none |
| CustomersView.LeadsPhaseKeys | crm-backend/auto_crm/auto_crm/customers_view.py:12-26 | after the leads loop there is exactly one entry per distinct non-empty lead phone |
| CustomersView.LeadsWithPhone | crm-backend/auto_crm/auto_crm/customers_view.py:13-20 | no lead has the phone exactly when the list of leads with that phone is empty |
| CustomersView.LeadStepEntry | crm-backend/auto_crm/auto_crm/customers_view.py:20-42 | one lead changes only its own phone's entry: it is created with the lead's name if new, gains the SALE event and grows by the sold price |
| CustomersView.LeadsPhaseEntry | crm-backend/auto_crm/auto_crm/customers_view.py:13-42 | the entry for a phone is named after the first lead with that phone and never renamed; its history is that phone's SALE events in table order; its lifetime value is the sum of their sold prices |
| CustomersView.EmptyPhoneSkipped | crm-backend/auto_crm/auto_crm/customers_view.py:14-15 | a lead with an empty phone leaves the customers unchanged |
| CustomersView.ServiceStepSpec | crm-backend/auto_crm/auto_crm/customers_view.py:47-101 | an unresolved phone changes nothing; otherwise the phone's entry (created with the service name when new, name kept when old) gains exactly one SERVICE event with the total cost, and its lifetime value grows by that cost only for a COMPLETED record; other entries are untouched; an error arises only when naming a new customer fails |
| CustomersView.ServicesKeepNames | crm-backend/auto_crm/auto_crm/customers_view.py:67-86 | the services loop never drops a customer and never renames one |
| CustomersView.ServiceInputForStoredRecord | crm-backend/auto_crm/auto_crm/customers_view.py:50-79 | for the application's own models a record is filed under its owner's phone (skipped when empty) and a new entry is named after the owner |
| CustomersView.HistoriesNewestFirst | crm-backend/auto_crm/auto_crm/customers_view.py:104-108 | each customer's history ends newest first and is a reordering of the events collected for that customer |
| CustomersView.AddLead | crm-backend/auto_crm/auto_crm/customers_view.py:18-42 | appending the interest event and then patching `history[-1]` for a sold lead gives the lead step |
| CustomersView.CollectLeads | crm-backend/auto_crm/auto_crm/customers_view.py:12-42 | the leads loop computes the leads phase |
| CustomersView.ServicesStopAtError | crm-backend/auto_crm/auto_crm/customers_view.py:46-101 | once a service record's name lookup fails, the later records do not change the outcome |
| CustomersView.CollectServices | crm-backend/auto_crm/auto_crm/customers_view.py:46-101 | the services loop computes the services phase, stopping at the first failing name lookup |
| CustomersView.SortHistories | crm-backend/auto_crm/auto_crm/customers_view.py:107-108 | every customer's history is sorted, and nothing else changes |
| CustomersView.Customer360 | crm-backend/auto_crm/auto_crm/customers_view.py:8-110 | the view's answer is the leads phase, then the services phase, then the histories sorted |
| FinanceView.InventoryValueNone | crm-backend/auto_crm/auto_crm/finance_view.py:16 | with no AVAILABLE or RESERVED vehicle the inventory value is 0 |
| FinanceView.SalesProfit | crm-backend/auto_crm/auto_crm/finance_view.py:24-28 | the accumulator loop gives the sum of selling minus cost over the sold cars whose two prices are both non-zero |
| FinanceView.ProfitOf | crm-backend/auto_crm/auto_crm/finance_view.py:26-28 | over already filtered cars, the accumulator equals the sum of each car's profit, where a car with a zero price contributes 0 |
| FinanceView.SalesProfitWhenPriced | crm-backend/auto_crm/auto_crm/finance_view.py:24-28 | when every sold car carries both prices, sales profit is sold revenue minus sold cost |
| FinanceView.MonthAbbrev | crm-backend/auto_crm/auto_crm/finance_view.py:56 | the month key is a three-letter month name |
| FinanceView.SalesPhaseBalanced | crm-backend/auto_crm/auto_crm/finance_view.py:55-62 | after the sales loop every entry is named after its key and has Profit = Revenue - Cost |
| FinanceView.ServicePhaseBalanced | crm-backend/auto_crm/auto_crm/finance_view.py:65-74 | the service loop keeps Profit = Revenue - Cost in every entry |
| FinanceView.MergeBalanced | crm-backend/auto_crm/auto_crm/finance_view.py:52-77 | every month of the chart has Profit = Revenue - Cost |
| FinanceView.AddSalesEntry | crm-backend/auto_crm/auto_crm/finance_view.py:56-62 | a sales row creates its month all-zero if new, then adds revenue, cost and revenue minus cost to it; other months are untouched |
| FinanceView.AddServiceEntry | crm-backend/auto_crm/auto_crm/finance_view.py:66-74 | a service row creates its month all-zero if new, then adds its revenue to Revenue and Profit and leaves Cost alone; other months are untouched |
| FinanceView.SalesPhaseEntry | crm-backend/auto_crm/auto_crm/finance_view.py:55-62 | a month name is present after the sales loop iff some row has it, and its entry holds that name's revenue and cost sums |
| FinanceView.ServicePhaseEntry | crm-backend/auto_crm/auto_crm/finance_view.py:65-74 | the service loop adds each name's service revenue to Revenue and Profit, and a name is present iff it was before or some service row has it |
| FinanceView.MergeEntry | crm-backend/auto_crm/auto_crm/finance_view.py:52-77 | a month name is in the chart iff a sales or service row has it, and its entry sums every row of that name whatever its year |
| FinanceView.MergeSalesRow | crm-backend/auto_crm/auto_crm/finance_view.py:56-62 | the three `+=` on the month's entry are one sales step |
| FinanceView.MergeSales | crm-backend/auto_crm/auto_crm/finance_view.py:52-62 | the sales merge loop computes the sales phase |
| FinanceView.MergeServiceRow | crm-backend/auto_crm/auto_crm/finance_view.py:66-74 | the two `+=` on the month's entry are one service step |
| FinanceView.MergeService | crm-backend/auto_crm/auto_crm/finance_view.py:65-74 | the service merge loop computes the service phase |
| FinanceView.MergeMonths | crm-backend/auto_crm/auto_crm/finance_view.py:52-77 | the chart is the merged dictionary's values in insertion order |
| FinanceView.SaleRowOf | crm-backend/auto_crm/auto_crm/finance_view.py:82-93 | one recent-sale row: profit is selling minus cost, and the margin is computed only for a positive selling price |
| FinanceView.RecentSales | crm-backend/auto_crm/auto_crm/finance_view.py:80-93 | one row per recent sold car, in order |
| FinanceView.SaleRows | crm-backend/auto_crm/auto_crm/finance_view.py:81-93 | exactly one row per car, the i-th row being the i-th car's sale row |
| FinanceView.RecentSalesShape | crm-backend/auto_crm/auto_crm/finance_view.py:80-93 | min(5, sold cars) rows, all sold cars of the table, newest update first, and no sold car left out was updated later than any row kept; the margin is 0 unless the selling price is positive, and then it is positive iff the profit is |
| FinanceView.FinancialSummary | crm-backend/auto_crm/auto_crm/finance_view.py:14-104 | the KPI figures, with total revenue = total sales + service revenue; the chart with Profit = Revenue - Cost in every month; the recent sales are one row per car of the five most recently updated sold cars, in that order |
| Analytics.CurrentUserView | crm-backend/auto_crm/auto_crm/urls.py:25-31 | the username is echoed; the manager flag holds iff the user is a superuser or in the Manager group; the sales flag iff in the Sales group |
| Analytics.ManagerFlagMatchesRole | crm-backend/auto_crm/auto_crm/urls.py:29 | the session's manager flag holds iff the user list labels the user "Manager", and iff the permission check admits them |
| Analytics.JobsPhaseAt | crm-backend/auto_crm/auto_crm/urls.py:49-56 | after the service loop a (year, month) bucket exists iff a job with a usable date falls in it, and it holds those jobs' parts plus labor (absent costs as 0) |
| Analytics.CarsPhaseAt | crm-backend/auto_crm/auto_crm/urls.py:64-79 | the car loop adds a bucket only for a dated sale with positive profit, and adds exactly the positive profits of that month |
| Analytics.TotalsAt | crm-backend/auto_crm/auto_crm/urls.py:41-79 | a month has a bucket iff a completed job or a profitable dated sale falls in it; its total is the jobs' amounts plus the sales' positive profits |
| Analytics.UnparsedJobSkipped | crm-backend/auto_crm/auto_crm/urls.py:51-53 | a job whose text date does not parse changes no bucket |
| Analytics.CarSkipped | crm-backend/auto_crm/auto_crm/urls.py:66-79 | a car with no sold date, or without positive profit, changes no bucket |
| Analytics.MonthIndexInjective | crm-backend/auto_crm/auto_crm/urls.py:83 | two (year, month) keys with the same position in the tuple order are the same key |
| Analytics.ChartShape | crm-backend/auto_crm/auto_crm/urls.py:82-88 | one chart point per bucket, in strictly ascending (year, month) order, each named by its month and carrying that bucket's total |
| Analytics.DashboardAnalytics | crm-backend/auto_crm/auto_crm/urls.py:35-93 | the chart is the sorted chart of the totals of both loops |
| Analytics.BuildChart | crm-backend/auto_crm/auto_crm/urls.py:82-88 | the chart loop visits the sorted keys and emits one point per key |
| Analytics.ChartRows | crm-backend/auto_crm/auto_crm/urls.py:83-88 | exactly one point per key, in key order, named by the key's month abbreviation and holding that key's total (0 for a missing key) |
| Analytics.CollectJobs | crm-backend/auto_crm/auto_crm/urls.py:49-56 | the service-job loop computes the jobs phase |
| Analytics.CollectCars | crm-backend/auto_crm/auto_crm/urls.py:64-79 | the sold-car loop computes the cars phase |
| DashboardView.ActiveLeads | crm-backend/auto_crm/auto_crm/dashboard_view.py:23 | the count is at most the number of leads, and is 0 iff no lead is in NEGOTIATION |
| DashboardView.SalesThisMonth | crm-backend/auto_crm/auto_crm/dashboard_view.py:26-30 | the count is at most the number of vehicles, and is 0 iff no vehicle was SOLD and updated since the month began |
| DashboardView.ActivityShape | crm-backend/auto_crm/auto_crm/dashboard_view.py:37-61 | at most three leads and three sales go in; min(5, total) items come out, newest first, each one of the items that went in, and no item left out is newer than any item kept |
| DashboardView.RecentLeadsNewest | crm-backend/auto_crm/auto_crm/dashboard_view.py:37 | the leads shown are min(3, leads) leads of the table, newest created first, and no lead left out was created later than any lead shown |
| DashboardView.RecentSoldNewest | crm-backend/auto_crm/auto_crm/dashboard_view.py:44 | the sales shown are min(3, sold cars) SOLD cars of the table, newest update first, and no sold car left out was updated later than any car shown |
| DashboardView.DashboardStats | crm-backend/auto_crm/auto_crm/dashboard_view.py:14-62 | the inventory value (cost of AVAILABLE and RESERVED cars), the NEGOTIATION count, the sold-this-month count, and the sorted, truncated activity |
| DashboardView.CollectActivity | crm-backend/auto_crm/auto_crm/dashboard_view.py:34-50 | the two append loops give the recent leads' items followed by the recent sales' items |
| DashboardView.AppendLeads | crm-backend/auto_crm/auto_crm/dashboard_view.py:37-42 | the "New Lead" loop appends one item per recent lead, in order, after what was there |
| DashboardView.AppendSales | crm-backend/auto_crm/auto_crm/dashboard_view.py:45-50 | the "Vehicle Sold" loop appends one item per recent sale, in order, after what was there |
| UsersView.RoleLabel | crm-backend/auto_crm/auto_crm/users_view.py:27-31 | "Manager" iff superuser or in the Manager group; "Sales" iff not a manager and in the Sales group; "Staff/Service" iff neither |
| UsersView.CreateStatus | crm-backend/auto_crm/auto_crm/users_view.py:45-57 | 403 iff the caller is not a manager; 400 iff a manager sends a missing username or password or a taken username; 201 otherwise |
| UsersView.GroupsFor | crm-backend/auto_crm/auto_crm/users_view.py:68-74 | MANAGER gets the Manager and Sales groups, SALES the Sales group, any other role none |
| UsersView.NewUser | crm-backend/auto_crm/auto_crm/users_view.py:61-76 | the new account has the requested username, a fresh key, staff status and manager rights iff the role is MANAGER, and the role label that role implies |
| UsersView.DeleteStatus | crm-backend/auto_crm/auto_crm/users_view.py:87-97 | 403 iff not a manager; 404 iff no such account; 400 iff it is the caller's own account; 204 otherwise |
| UsersView.WithoutUser | crm-backend/auto_crm/auto_crm/users_view.py:97 | exactly the accounts with other keys remain, in their order |
| UsersView.UserTable.constructor | crm-backend/auto_crm/auto_crm/users_view.py:18-41 | the account table starts empty with unique names |
| UsersView.UserTable.List | crm-backend/auto_crm/auto_crm/users_view.py:18-41 | 403 with no rows for a non-manager; otherwise one row per account, newest joined first, with its role label |
| UsersView.UserTable.Create | crm-backend/auto_crm/auto_crm/users_view.py:43-77 | the status is the checks' verdict; only a 201 appends the new account, and keys and usernames stay unique |
| UsersView.UserTable.Delete | crm-backend/auto_crm/auto_crm/users_view.py:84-98 | the status is the checks' verdict; only a 204 removes the account, and nothing else changes |
| UsersView.ListNewestFirst | crm-backend/auto_crm/auto_crm/users_view.py:23 | the listing holds every account once, newest joined first |
| SalesModels.ParseLeadStatus | crm-backend/auto_crm/sales/models.py:5-12 | a code parses iff it is one of the six status codes, and parses to the status with that code |
| SalesModels.ParseLeadStatusRoundTrip | crm-backend/auto_crm/sales/models.py:5-12 | every status's code parses back to that status |
| SalesModels.ParseLeadSource | crm-backend/auto_crm/sales/models.py:19-25 | a source parses iff it is one of the five choices, and parses to that choice |
| SalesModels.ParseLeadSourceRoundTrip | crm-backend/auto_crm/sales/models.py:19-25 | every source's code parses back to that source |
| SalesModels.NewLead | crm-backend/auto_crm/sales/models.py:14-35 | a lead created from its required fields has status NEW, source Walk-in, no vehicle and no figures, and is stamped with the creation time |
| SalesModels.SyncedStatusCases | crm-backend/auto_crm/sales/models.py:43-52 | the vehicle ends SOLD iff the lead is SOLD; it ends AVAILABLE iff the lead is not SOLD and the vehicle was SOLD or AVAILABLE; any other status, RESERVED for one, is left as it was |
| SalesModels.SyncedStatusIdempotent | crm-backend/auto_crm/sales/models.py:43-52 | applying the hook's status rule twice gives the same status as once |
| SalesModels.VehiclesAfterSaveSpec | crm-backend/auto_crm/sales/models.py:41-54 | saving a lead keeps the vehicle table valid and its length; only the linked vehicle can change, and it ends in the synced status |
| SalesModels.NoVehicleNoChange | crm-backend/auto_crm/sales/models.py:43-52 | a lead without a vehicle leaves the vehicle table unchanged |
| SalesModels.SaveTwiceSameStatus | crm-backend/auto_crm/sales/models.py:41-54 | saving the same lead twice leaves every vehicle in the status the first save gave it |
| SalesModels.Upsert | crm-backend/auto_crm/sales/models.py:54 | an existing key is overwritten in place and a new key is appended; keys stay unique |
| SalesModels.FindLead | crm-backend/auto_crm/sales/views.py:11 | the lookup succeeds iff a lead with that key exists, and returns a stored lead with that key |
| SalesModels.LeadTable.constructor | crm-backend/auto_crm/sales/models.py:27-54 | the lead table starts empty with unique keys |
| SalesModels.LeadTable.Save | crm-backend/auto_crm/sales/models.py:41-54 | the vehicle side runs first and gives the synced vehicle table, then the lead is upserted |
| SalesModels.LeadTable.Create | crm-backend/auto_crm/sales/models.py:27-54 | a created lead gets a fresh key and the creation time, is appended, and runs the vehicle hook |
| SalesModels.LeadTable.Delete | crm-backend/auto_crm/sales/views.py:6-8 | exactly the lead with that key goes; the others keep their order and keys stay unique |
| SalesViews.ListLeadsNewestFirst | crm-backend/auto_crm/sales/views.py:7 | the listing holds every lead once, newest created first |
| SalesViews.NoResendWhenAlreadySold | crm-backend/auto_crm/sales/views.py:17 | re-saving a lead that is already SOLD is never a transition into SOLD |
| SalesViews.SoldVehicleName | crm-backend/auto_crm/sales/views.py:20-24 | "year make model" for a linked vehicle, "new car" otherwise |
| SalesViews.SoldMessageMentions | crm-backend/auto_crm/sales/views.py:26-30 | the message contains the lead's first name and the vehicle text |
| SalesViews.PerformUpdate | crm-backend/auto_crm/sales/views.py:10-33 | 404 for an unknown lead and 400 for a missing vehicle, each with nothing changed; otherwise the lead is saved with its vehicle hook, and exactly one message goes to the lead's phone iff the status moves from non-SOLD to SOLD |
| InventoryModels.ParseStatus | crm-backend/auto_crm/inventory/models.py:4-9 | a code parses iff it is one of the four effective status codes, and parses to the status with that code |
| InventoryModels.ParseStatusRoundTrip | crm-backend/auto_crm/inventory/models.py:40 | every status's code parses back to that status |
| InventoryModels.NewVehicle | crm-backend/auto_crm/inventory/models.py:11-40 | a row created from its required fields is AVAILABLE, has both prices 0, and has no sold date, year or plate |
| InventoryModels.FieldErrors | crm-backend/auto_crm/inventory/models.py:11-28 | no field is reported iff the row meets every column rule |
| InventoryModels.InsertVehicle | crm-backend/auto_crm/inventory/models.py:11-28 | a new row is rejected iff it breaks a column rule (a blank or over-long VIN, stock number or colour, a make, model, body style, trim or plate over its `max_length`, a price beyond ten digits) or its VIN or stock number is taken; otherwise it is appended with a fresh key; the table stays valid |
| InventoryModels.SetStatus | crm-backend/auto_crm/inventory/models.py:32-40 | only the rows with that key change: they get the status and a fresh `updated_at` |
| InventoryModels.SetStatusKeepsValid | crm-backend/auto_crm/inventory/models.py:11-12 | a status change keeps keys, VINs and stock numbers unique and keeps the same set of keys |
| InventoryModels.Find | crm-backend/auto_crm/inventory/views.py:12-17 | the lookup succeeds iff a row has that key, and returns a stored row with that key |
| InventoryModels.FindUnique | crm-backend/auto_crm/inventory/models.py:11-12 | in a valid table a key names one row, and the lookup returns it |
| InventoryModels.SetStatusFind | crm-backend/auto_crm/inventory/models.py:32-40 | after a status change the row with that key reads back with the new status and time |
| InventoryModels.Replace | crm-backend/auto_crm/inventory/views.py:15-17 | the rows with that key become the new row; the others stay |
| InventoryModels.ReplaceKeepsValid | crm-backend/auto_crm/inventory/models.py:11-28 | replacing a row by one with the same key, VIN and stock number that meets the column rules keeps the table valid |
| InventoryModels.VehicleTable.constructor | crm-backend/auto_crm/inventory/models.py:11-12 | the vehicle table starts empty with unique keys, VINs and stock numbers |
| InventoryModels.VehicleTable.Create | crm-backend/auto_crm/inventory/models.py:11-28 | a rejected row leaves the table unchanged and reports every failing field (column rules and uniqueness); an accepted one is appended with a fresh key |
| InventoryModels.VehicleTable.SetStatusOf | crm-backend/auto_crm/sales/models.py:45-52 | the table becomes the status-changed table and stays valid |
| InventoryModels.VehicleTable.Save | crm-backend/auto_crm/inventory/views.py:15-17 | the row with that key becomes the saved (validated) row, and the table stays valid |
| InventoryModels.VehicleTable.Delete | crm-backend/auto_crm/inventory/views.py:8-10 | exactly the row with that key goes, and the table stays valid |
| InventoryViews.PatchErrors | crm-backend/auto_crm/inventory/views.py:12-17 | no field is reported iff every sent field is valid; `status` is reported iff an unknown status code is sent |
| InventoryViews.ApplyPatch | crm-backend/auto_crm/inventory/views.py:12-17 | a patch is rejected, naming the failing fields, iff it sends an unknown status code, a blank or over-long colour or a price beyond ten digits; otherwise `sold_date` becomes now iff the request's status is SOLD and is kept otherwise, the status is the sent one, identity fields are kept, `updated_at` is now, and a row that met the column rules still does |
| InventoryViews.ResubmitSoldRestamps | crm-backend/auto_crm/inventory/views.py:14-15 | submitting a valid SOLD patch again replaces the earlier sale stamp with the new time |
| InventoryViews.PerformUpdate | crm-backend/auto_crm/inventory/views.py:12-17 | 404 for an unknown key and 400 for an invalid field, each with nothing changed; otherwise the row is replaced by the patched row and the table stays valid |
| InventoryViews.DecodeVinView | crm-backend/auto_crm/inventory/views.py:24-33 | 400 iff the VIN is missing or empty, and then the decoder is never asked; otherwise the decoder's answer for that VIN, a 500 iff decoding raises |
| VinDecoder.ParseInt | crm-backend/auto_crm/inventory/vin_decoder.py:24 | `int(value)` succeeds iff the text, stripped of surrounding whitespace, is an optional sign and digits grouped by single underscores; the year has the sign of the literal |
| VinDecoder.ParseIntExamples | crm-backend/auto_crm/inventory/vin_decoder.py:24 | " 2020\n" and "2_020" both read 2020, and "20__20" is refused |
| VinDecoder.ParseIntOfDecimal | crm-backend/auto_crm/inventory/vin_decoder.py:24 | the decimal text of a number parses back to that number |
| VinDecoder.DecodeVin | crm-backend/auto_crm/inventory/vin_decoder.py:11-30 | the loop folds the rows from the left and stops at the first row that raises |
| VinDecoder.DecodeStopsAtError | crm-backend/auto_crm/inventory/vin_decoder.py:14-28 | once a prefix of the rows fails, the whole decode fails with the same error |
| VinDecoder.DecodeFailsIffBadYear | crm-backend/auto_crm/inventory/vin_decoder.py:18-24 | the decode fails iff some non-empty Model Year value is not text that `int()` accepts |
| VinDecoder.DecodeTextField | crm-backend/auto_crm/inventory/vin_decoder.py:14-28 | make, model, trim and body style each hold the value of the last row that sets them with a non-empty value, and are absent iff no row does |
| VinDecoder.DecodeYear | crm-backend/auto_crm/inventory/vin_decoder.py:23-24 | the year is the integer value of the last row that sets Model Year, and is absent iff no row does |
| Sms.Outbox.Send | crm-backend/auto_crm/auto_crm/sms.py:3-11 | sending appends exactly one message, to that number with that text |
| AlprAi.CleanAlpr | crm-backend/auto_crm/service/alpr_ai.py:30 | the cleaned token holds only A-Z and 0-9 |
| AlprAi.DetectLicensePlate | crm-backend/auto_crm/service/alpr_ai.py:23-37 | the loop's result is the first collected token, or None when nothing is collected |
| AlprAi.DetectedIsFilter | crm-backend/auto_crm/service/alpr_ai.py:26-34 | what the loop collects is the cleaned text of results with confidence over 0.5 and a cleaned length from 4 to 8; it is empty iff no result qualifies |
| AlprAi.FirstAccepted | crm-backend/auto_crm/service/alpr_ai.py:37 | the plate is the cleaned text of the first qualifying result in OCR order; None iff none qualifies |
| ServiceModels.ParseRecordStatus | crm-backend/auto_crm/service/models.py:27-31 | a code parses iff it is PENDING, IN_PROGRESS or COMPLETED, and parses to that status |
| ServiceModels.ParseRecordStatusRoundTrip | crm-backend/auto_crm/service/models.py:27-31 | every record status's code parses back to that status |
| ServiceModels.ParseAppointmentStatus | crm-backend/auto_crm/service/models.py:52-56 | a code parses iff it is SCHEDULED, COMPLETED or CANCELLED, and parses to that status |
| ServiceModels.ParseAppointmentStatusRoundTrip | crm-backend/auto_crm/service/models.py:52-56 | every appointment status's code parses back to that status |
| ServiceModels.NewRecord | crm-backend/auto_crm/service/models.py:23-40 | a new record is PENDING with parts and labor 0, so its total cost is 0 |
| ServiceModels.NewAppointment | crm-backend/auto_crm/service/models.py:46-56 | a new appointment is SCHEDULED and keeps its customer, title and times |
| ServiceModels.RegisterErrors | crm-backend/auto_crm/service/models.py:14-17 | no field is reported iff the owner exists, the column rules hold and the plate is free; only the four validated fields are ever named |
| ServiceModels.RegisterVehicle | crm-backend/auto_crm/service/models.py:14-17 | a vehicle is rejected iff its owner is unknown, its plate is blank, over 20 characters or already registered, or its make or model is blank or over 50 characters; the plate is named among the errors exactly in the plate cases; otherwise it is appended with a fresh key and the table stays valid |
| ServiceModels.FindByPlate | crm-backend/auto_crm/service/models.py:15 | the lookup succeeds iff some vehicle has that plate, and returns a stored vehicle with that plate |
| ServiceModels.FindByPlateUnique | crm-backend/auto_crm/service/models.py:15 | with unique plates the lookup returns the one vehicle registered under the plate |
| ServiceModels.FindById | crm-backend/auto_crm/service/views.py:33 | a lookup by key (a record by `pk`, a record's vehicle, a vehicle's owner) returns a stored row with that key, and fails only when no row has it |
| ServiceModels.RecordAttrs | crm-backend/auto_crm/service/models.py:23-40 | a loaded record has no `customer_phone`, `phone`, `mobile` or `customer_name` attribute |
| ServiceModels.CustomerAttrs | crm-backend/auto_crm/service/models.py:3-7 | a loaded customer answers `phone` with its phone and has no `phone_number`, `mobile`, `contact_number` or `first_name` attribute |
| Sms.Outbox.constructor | crm-backend/auto_crm/auto_crm/sms.py:3-11 | the outbox starts empty |
| ServiceViews.FirstTruthy | crm-backend/auto_crm/service/views.py:45-48 | the phone found is the value of the first listed field present with a truthy value; none is found iff no listed field is truthy |
| ServiceViews.LookupPhone | crm-backend/auto_crm/service/views.py:54-61 | the field loop with its `break` returns exactly the first truthy field's value |
| ServiceViews.GetAttr | crm-backend/auto_crm/service/views.py:96 | a plain attribute read succeeds iff the attribute exists, and otherwise raises |
| ServiceViews.OwnerDisplayName | crm-backend/auto_crm/service/views.py:58-60 | the name is `str(owner)` unless the owner has a truthy first name; it raises iff there is a first name but no `last_name` attribute |
| ServiceViews.CompletionSms | crm-backend/auto_crm/service/views.py:39-79 | a truthy record phone is texted as "Valued Customer"; nothing is sent iff no record phone and no owner phone is found |
| ServiceViews.CompletionForStoredRecord | crm-backend/auto_crm/service/views.py:44-79 | for the app's own models the owner's `phone` is texted under the owner's name, and nothing is sent when it is empty |
| ServiceViews.RecordTable.constructor | crm-backend/auto_crm/service/views.py:27-29 | the table starts empty with unique keys |
| ServiceViews.RecordTable.Save | crm-backend/auto_crm/service/views.py:35 | the row with the saved key is replaced and keys stay unique |
| ServiceViews.ReplaceRecord | crm-backend/auto_crm/service/views.py:35 | same length; exactly the rows with the saved key become the new record |
| ServiceViews.PerformUpdate | crm-backend/auto_crm/service/views.py:32-79 | 404 iff the record is unknown, 400 iff its new vehicle is unknown, both changing nothing; otherwise the record is saved with its stored creation date kept, and only a move into COMPLETED sends the completion message (500 iff the name lookup raises) |
| ServiceViews.SendCompletion | crm-backend/auto_crm/service/views.py:40-77 | the completion branch fails iff the owner-name lookup raises; otherwise the outbox gains exactly the message the record's or the owner's first truthy phone field calls for, and nothing when neither has one |
| ServiceViews.ManualSmsAsWritten | crm-backend/auto_crm/service/views.py:93-124 | as written: a record without a `customer_phone` attribute answers 500; a message is sent iff the answer is 200 |
| ServiceViews.ManualSms | crm-backend/auto_crm/service/views.py:93-124 | with guarded reads the answer is 200 with a message or 400 without one, never 500 |
| ServiceViews.SendServiceSmsAsWritten | crm-backend/auto_crm/service/views.py:88-133 | an unknown key answers 404 |
| ServiceViews.AsWrittenNeverSends | crm-backend/auto_crm/service/views.py:96-108 | every stored record answers 500 with no message, so the 400 branch is never reached |
| ServiceViews.SendServiceSms | crm-backend/auto_crm/service/views.py:88-133 | 404 iff the key is unknown; a message is sent iff the answer is 200 |
| ServiceViews.SendServiceSmsForStoredRecord | crm-backend/auto_crm/service/views.py:99-128 | for a stored record the answer is 400 iff the owner's phone is empty; otherwise the owner is texted under the owner's name about the vehicle and the total |
| ServiceViews.SendServiceSmsView | crm-backend/auto_crm/service/views.py:127-128 | the outbox gains exactly the message the endpoint answers with, and nothing on an error |
| ServiceViews.CleanScanMatchesAlpr | crm-backend/auto_crm/service/views.py:159 | on ASCII text, the scan view's cleaning equals the ALPR helper's cleaning |
| ServiceViews.Candidates | crm-backend/auto_crm/service/views.py:158-161 | the loop collects exactly the candidates of its specification |
| ServiceViews.CleanedTexts | crm-backend/auto_crm/service/views.py:159 | one cleaned token per OCR result, in order |
| ServiceViews.CandidatesAreFiltered | crm-backend/auto_crm/service/views.py:158-161 | the candidates are the cleaned tokens of length at least 3, in OCR order |
| ServiceViews.PickPlateFirstLongest | crm-backend/auto_crm/service/views.py:163-165 | the stable sort by length descending picks a longest candidate, and the first of the longest |
| ServiceViews.ScanPlate | crm-backend/auto_crm/service/views.py:140-178 | 400 iff no image; otherwise the chosen plate ("UNKNOWN" without candidates) and the vehicle registered under it |
| ServiceViews.ScanPlateShape | crm-backend/auto_crm/service/views.py:154-165 | a plate chosen from candidates is at least 3 long and only A-Z and 0-9 |
| Desking.AvailableCars | auto-crm-frontend/src/features/sales/components/DeskingCalculator.tsx:54-59 | the desk lists exactly the loaded cars whose status is AVAILABLE |
| Desking.FilteredVehicles | auto-crm-frontend/src/features/sales/components/DeskingCalculator.tsx:142-145 | a car is listed iff its year, make, model, stock number and VIN text contains the search, ignoring case |
| Desking.SearchFindsVin | auto-crm-frontend/src/features/sales/components/DeskingCalculator.tsx:142-145 | a car's own VIN finds it |
| Desking.SearchFindsStock | auto-crm-frontend/src/features/sales/components/DeskingCalculator.tsx:142-145 | a car's own stock number finds it |
| Desking.FilteredVehiclesSpec | auto-crm-frontend/src/features/sales/components/DeskingCalculator.tsx:142-145 | the list keeps the loaded order, an empty search lists every car, and each car is found by its VIN and by its stock number |
| Desking.TrimSpaces | auto-crm-frontend/src/features/sales/components/DeskingCalculator.tsx:71 | trimming never lengthens, leaves no space at either end, and leaves text without spaces unchanged |
| Desking.PickLabel | auto-crm-frontend/src/features/sales/components/DeskingCalculator.tsx:71 | the search box shows the trimmed "year make model" or the stock number; it is blank only when the stock number is |
| Desking.PickLabelFallsBack | auto-crm-frontend/src/features/sales/components/DeskingCalculator.tsx:71 | a car with no year, make or model is labelled by its stock number |
| Desking.MonthlyPayment | auto-crm-frontend/src/features/sales/components/DeskingCalculator.tsx:75-98 | no term, or nothing financed, gives a payment of 0 |
| Desking.BalanceClosedForm | auto-crm-frontend/src/features/sales/components/DeskingCalculator.tsx:91-93 | the balance after k payments satisfies the annuity closed form |
| Desking.BalanceUnfold | auto-crm-frontend/src/features/sales/components/DeskingCalculator.tsx:91-93 | one month adds interest and takes off one payment |
| Desking.StepIdentity | auto-crm-frontend/src/features/sales/components/DeskingCalculator.tsx:91-93 | one month of the closed form carries over to the next month |
| Desking.BalanceWithoutInterest | auto-crm-frontend/src/features/sales/components/DeskingCalculator.tsx:88-89 | without interest k payments take k times the payment off the principal |
| Desking.PowAboveOne | auto-crm-frontend/src/features/sales/components/DeskingCalculator.tsx:92-93 | a positive monthly rate compounds to a factor above one, so the denominator is positive |
| Desking.GrowthBound | auto-crm-frontend/src/features/sales/components/DeskingCalculator.tsx:92-93 | the compounded growth minus one is less than n times the rate times the growth |
| Desking.PaymentClearsLoan | auto-crm-frontend/src/features/sales/components/DeskingCalculator.tsx:75-98 | the computed payment leaves nothing owed after the last month, for every non-negative rate |
| Desking.PaymentCoversInterest | auto-crm-frontend/src/features/sales/components/DeskingCalculator.tsx:91-93 | with a positive rate the payments add up to more than the amount financed |
| Desking.SaveCheck | auto-crm-frontend/src/features/sales/components/DeskingCalculator.tsx:101-107 | no vehicle, then missing customer details, then a car that is not AVAILABLE, are rejected in that order; otherwise the deal is saved |
| Desking.NameSplitTwoWords | auto-crm-frontend/src/features/sales/components/DeskingCalculator.tsx:111-112 | one word is all first name; "first last" splits into the two words |
| Desking.NameSplitDropsRest | auto-crm-frontend/src/features/sales/components/DeskingCalculator.tsx:111-112 | words after the second are dropped |
| Desking.NameSplitParts | auto-crm-frontend/src/features/sales/components/DeskingCalculator.tsx:111-112 | the first name is a prefix of the name, neither part holds a space, and a name without spaces is all first name |
| Desking.Desk.constructor | auto-crm-frontend/src/features/sales/components/DeskingCalculator.tsx:26-45 | the initial state: no cars, no selection, price 0, down 2000, rate 5.9, term 60, source Walk-in, nothing sent |
| Desking.Desk.Load | auto-crm-frontend/src/features/sales/components/DeskingCalculator.tsx:54-59 | the cars are the AVAILABLE ones, and no other state changes |
| Desking.Desk.Recompute | auto-crm-frontend/src/features/sales/components/DeskingCalculator.tsx:75-98 | the payment is the monthly payment of the current price, down payment, rate and term |
| Desking.Desk.SelectCar | auto-crm-frontend/src/features/sales/components/DeskingCalculator.tsx:68-73 | the car is selected, its price taken, its label shown and the dropdown closed; the payment follows the new price; loan terms and customer are unchanged |
| Desking.Desk.SaveDeal | auto-crm-frontend/src/features/sales/components/DeskingCalculator.tsx:101-140 | a rejected save changes nothing; otherwise the NEGOTIATION lead is posted and, only if that post succeeds, the car is reserved; when both succeed the customer, source, search and selection are cleared, and when either fails they are all kept; price, terms and payment stay |
| LeadsList.StatusChanged | auto-crm-frontend/src/features/sales/components/LeadsList.tsx:79-81 | only the leads with the id change, and only in their status; ids and length are kept |
| LeadsList.VehicleEffect | auto-crm-frontend/src/features/sales/components/LeadsList.tsx:85-98 | a car write follows iff the lead exists, has a car and the new status is LOST or SOLD; LOST frees the car and SOLD marks it sold |
| LeadsList.ReleaseOnDelete | auto-crm-frontend/src/features/sales/components/LeadsList.tsx:60-64 | the car is released iff the lead is in NEGOTIATION and has a car |
| LeadsList.FilteredLeads | auto-crm-frontend/src/features/sales/components/LeadsList.tsx:107-112 | a lead is shown iff its name, phone and model text contains the search ignoring case and the status filter is ALL or its status |
| LeadsList.FilteredLeadsSpec | auto-crm-frontend/src/features/sales/components/LeadsList.tsx:107-112 | the shown leads keep the board's order, no search with ALL shows every lead, and a lead's phone finds it |
| LeadsList.SearchFindsPhone | auto-crm-frontend/src/features/sales/components/LeadsList.tsx:108-109 | a lead's own phone number matches its search text |
| LeadsList.Board.constructor | auto-crm-frontend/src/features/sales/components/LeadsList.tsx:32-37 | the board starts empty with no search, the ALL filter and nothing sent |
| LeadsList.Board.Load | auto-crm-frontend/src/features/sales/components/LeadsList.tsx:43-52 | the board holds the fetched leads |
| LeadsList.Board.ChangeStatus | auto-crm-frontend/src/features/sales/components/LeadsList.tsx:75-104 | the lead is rewritten locally, then patched, then its car moved as the status demands, in that order |
| LeadsList.Board.Delete | auto-crm-frontend/src/features/sales/components/LeadsList.tsx:55-72 | without confirmation nothing happens; otherwise the car release (if any) is sent first, a failed release skips the delete, and the lead leaves the board iff the release (if any) and the delete both succeed |
| LeadsList.DeleteSpec | auto-crm-frontend/src/features/sales/components/LeadsList.tsx:55-72 | after a delete exactly the other leads remain in order, and the first lead with the id releases its car when it is a NEGOTIATION deal |
| LeadsList.FirstMatchIsFound | auto-crm-frontend/src/features/sales/components/LeadsList.tsx:56 | `find` returns the first lead with the id |
| InventoryList.FilteredVehicles | auto-crm-frontend/src/features/inventory/components/InventoryList.tsx:78-83 | a car is listed iff the status filter is ALL or its status, and its year, make, model, VIN and stock number text contains the search ignoring case |
| InventoryList.FilteredVehiclesSpec | auto-crm-frontend/src/features/inventory/components/InventoryList.tsx:78-83 | the list keeps the loaded order, no search with ALL lists every car, a car's stock number finds it, and a specific filter lists only that status |
| InventoryList.ImageUrl | auto-crm-frontend/src/features/inventory/components/InventoryList.tsx:85-89 | no URL iff the photo is null or empty; an http path is kept; any other path is served from the backend |
| InventoryList.ImageUrlSpec | auto-crm-frontend/src/features/inventory/components/InventoryList.tsx:85-89 | every URL ends with the stored path, and applying the rule to its own output changes nothing |
| InventoryList.Grid.constructor | auto-crm-frontend/src/features/inventory/components/InventoryList.tsx:33-42 | the grid starts empty with no search and the ALL filter |
| InventoryList.Grid.Load | auto-crm-frontend/src/features/inventory/components/InventoryList.tsx:44-54 | the grid holds the fetched cars |
| InventoryList.Grid.Delete | auto-crm-frontend/src/features/inventory/components/InventoryList.tsx:61-69 | without confirmation nothing happens; otherwise the delete is sent, and exactly the cars with that id leave the grid iff it succeeds |
| VinDecoderForm.Filled | auto-crm-frontend/src/features/inventory/components/VINDecoderForm.tsx:43-51 | the decode fills make, model, trim and year from the answer or blank, cuts the body style to 50 characters, sets the VIN, and keeps stock number, colour, mileage, prices and status |
| VinDecoderForm.FormDataOf | auto-crm-frontend/src/features/inventory/components/VINDecoderForm.tsx:66-74 | the multipart body holds the twelve form keys in order, with the stock number and selling price, and a photo entry iff a photo is attached |
| VinDecoderForm.FieldNames | auto-crm-frontend/src/features/inventory/components/VINDecoderForm.tsx:20-33 | the form has twelve keys, none of them `photo` |
| VinDecoderForm.StockIn.constructor | auto-crm-frontend/src/features/inventory/components/VINDecoderForm.tsx:12-33 | a fresh page has no VIN, no photo, refresh key 0 and the initial form |
| VinDecoderForm.StockIn.TypeVin | auto-crm-frontend/src/features/inventory/components/VINDecoderForm.tsx:135 | the VIN box holds the typed text in upper case |
| VinDecoderForm.StockIn.SetStockNumber | auto-crm-frontend/src/features/inventory/components/VINDecoderForm.tsx:101-103 | only the stock number changes |
| VinDecoderForm.StockIn.SetSellingPrice | auto-crm-frontend/src/features/inventory/components/VINDecoderForm.tsx:101-103 | only the selling price changes |
| VinDecoderForm.StockIn.Decode | auto-crm-frontend/src/features/inventory/components/VINDecoderForm.tsx:36-57 | an empty VIN is rejected with no call; otherwise the decode is requested, a failure keeps the form, and an answer fills it |
| VinDecoderForm.StockIn.Save | auto-crm-frontend/src/features/inventory/components/VINDecoderForm.tsx:60-99 | a form without a stock number or selling price is rejected with no call; a post is sent otherwise, a failure keeps the page, and a success bumps the refresh key and clears the VIN, photo and form |
| VinDecoderForm.ClearedFormNotSavable | auto-crm-frontend/src/features/inventory/components/VINDecoderForm.tsx:86-89 | the cleared and the initial forms cannot be saved, and the cleared form offers AVAILABLE |
| PlateScanner.TodaysJobs | auto-crm-frontend/src/features/service/components/LicensePlateScanner.tsx:65-83 | the queue holds exactly the jobs dated today, each once, newest first |
| PlateScanner.CostsOf | auto-crm-frontend/src/features/service/components/LicensePlateScanner.tsx:238-244 | each cost is the job's parsed cost, or 0 when missing or unparsable |
| PlateScanner.PlateLookup | auto-crm-frontend/src/features/service/components/LicensePlateScanner.tsx:137-139 | a vehicle is found iff some plate equals the typed plate ignoring case, and the one found has such a plate |
| PlateScanner.Desk.constructor | auto-crm-frontend/src/features/service/components/LicensePlateScanner.tsx:38-55 | the desk starts with no picture, plate, vehicle, registration, jobs, billing or requests |
| PlateScanner.Desk.LoadJobs | auto-crm-frontend/src/features/service/components/LicensePlateScanner.tsx:65-83 | the queue is today's jobs, newest first |
| PlateScanner.Desk.ChangeStatus | auto-crm-frontend/src/features/service/components/LicensePlateScanner.tsx:86-94 | only the jobs with the id take the new status, and one patch is sent |
| PlateScanner.Desk.Upload | auto-crm-frontend/src/features/service/components/LicensePlateScanner.tsx:97-106 | a new picture clears the plate, the vehicle card and the registration form |
| PlateScanner.Desk.ProcessScanResult | auto-crm-frontend/src/features/service/components/LicensePlateScanner.tsx:150-160 | a known vehicle opens its card; an unknown plate opens registration with make and model "Unknown"; never both at once |
| PlateScanner.Desk.Scan | auto-crm-frontend/src/features/service/components/LicensePlateScanner.tsx:109-127 | without a picture or an answer nothing changes; otherwise the scan result is processed |
| PlateScanner.Desk.ManualSearch | auto-crm-frontend/src/features/service/components/LicensePlateScanner.tsx:130-147 | an empty plate or a failed fetch changes nothing; otherwise the upper-cased plate is shown with the vehicle found ignoring case, and registration opens iff none matches |
| PlateScanner.Desk.Register | auto-crm-frontend/src/features/service/components/LicensePlateScanner.tsx:163-184 | the customer is posted, then the vehicle under the new id with year 2020; a created vehicle replaces the form with its card |
| PlateScanner.Desk.CreateJob | auto-crm-frontend/src/features/service/components/LicensePlateScanner.tsx:187-201 | without an open vehicle or a description nothing is sent or changed; otherwise a PENDING job is posted, and a success clears the description and reloads the queue with today's jobs, newest first |
| PlateScanner.Desk.OpenBilling | auto-crm-frontend/src/features/service/components/LicensePlateScanner.tsx:238-244 | the billing dialog opens on the job with its costs |
| PlateScanner.Desk.SaveBilling | auto-crm-frontend/src/features/service/components/LicensePlateScanner.tsx:246-267 | without an open job nothing is sent or changed; otherwise the costs are patched with status COMPLETED, and a success closes the dialog, reloads the queue with today's jobs and queues the saved job for the invoice |
| ServiceCalendar.YearStep | auto-crm-frontend/src/features/service/components/ServiceCalendar.tsx:103-111 | consecutive years are as many days apart as the first year is long |
| ServiceCalendar.OrdinalMonotone | auto-crm-frontend/src/features/service/components/ServiceCalendar.tsx:113-121 | a date earlier in the calendar has a smaller day number |
| ServiceCalendar.OrdinalInjective | auto-crm-frontend/src/features/service/components/ServiceCalendar.tsx:113-121 | distinct valid dates have distinct day numbers |
| ServiceCalendar.NextDay | auto-crm-frontend/src/features/service/components/ServiceCalendar.tsx:105 | the next day is a valid date one day number on |
| ServiceCalendar.PrevDay | auto-crm-frontend/src/features/service/components/ServiceCalendar.tsx:105 | the previous day is a valid date one day number back |
| ServiceCalendar.AddDays | auto-crm-frontend/src/features/service/components/ServiceCalendar.tsx:103-107 | adding n days gives a valid date n day numbers on |
| ServiceCalendar.AddMonths | auto-crm-frontend/src/features/service/components/ServiceCalendar.tsx:109 | adding n months moves the month index by n and keeps the day, clamped to the month's length |
| ServiceCalendar.AddHour | auto-crm-frontend/src/features/service/components/ServiceCalendar.tsx:59-60 | the end of a booking is exactly one hour after its start |
| ServiceCalendar.Navigate | auto-crm-frontend/src/features/service/components/ServiceCalendar.tsx:103-111 | the day view moves one day, the week view seven days and the month view one month, back or forward, keeping the time of day |
| ServiceCalendar.DayWeekRoundTrip | auto-crm-frontend/src/features/service/components/ServiceCalendar.tsx:103-107 | in the day and week views a step and the opposite step return to the same moment |
| ServiceCalendar.MonthIndexInjective | auto-crm-frontend/src/features/service/components/ServiceCalendar.tsx:109 | equal month indexes mean the same year and month |
| ServiceCalendar.MonthRoundTrip | auto-crm-frontend/src/features/service/components/ServiceCalendar.tsx:109 | in the month view the round trip returns to the same moment iff the month stepped to has the cursor's day |
| ServiceCalendar.MonthRoundTripClamps | auto-crm-frontend/src/features/service/components/ServiceCalendar.tsx:109 | from 31 January 2025 a month forward and back lands on 28 January |
| ServiceCalendar.DayWindowIsInterval | auto-crm-frontend/src/features/service/components/ServiceCalendar.tsx:117 | the day view shows exactly the appointments starting between the day's midnight and its last millisecond |
| ServiceCalendar.WeekWindowIsInterval | auto-crm-frontend/src/features/service/components/ServiceCalendar.tsx:118 | the week view shows exactly the appointments starting in the Sunday-to-Saturday week around the cursor |
| ServiceCalendar.MonthWindowIsInterval | auto-crm-frontend/src/features/service/components/ServiceCalendar.tsx:119 | the month view shows exactly the appointments starting between the first and the last day of the cursor's month |
| ServiceCalendar.Visible | auto-crm-frontend/src/features/service/components/ServiceCalendar.tsx:114-121 | exactly the appointments whose start lies in the view's window are shown, earliest first |
| ServiceCalendar.Calendar.constructor | auto-crm-frontend/src/features/service/components/ServiceCalendar.tsx:21-34 | the calendar opens on the week view at today, with an empty booking form dated today at 09:00 |
| ServiceCalendar.Calendar.Load | auto-crm-frontend/src/features/service/components/ServiceCalendar.tsx:40-50 | the calendar holds the fetched appointments |
| ServiceCalendar.Calendar.Save | auto-crm-frontend/src/features/service/components/ServiceCalendar.tsx:53-79 | an incomplete form is rejected with no call; otherwise a one-hour SCHEDULED booking is posted, and a success clears title and customer but keeps date and time, and reloads the appointments |
| ServiceCalendar.Calendar.ChangeStatus | auto-crm-frontend/src/features/service/components/ServiceCalendar.tsx:81-90 | only the appointments with the id take the new status, and one patch is sent |
| ServiceCalendar.Calendar.Delete | auto-crm-frontend/src/features/service/components/ServiceCalendar.tsx:92-100 | without confirmation nothing happens; a confirmed delete is sent, and only a successful one drops the appointment |
| ServiceCalendar.Calendar.Step | auto-crm-frontend/src/features/service/components/ServiceCalendar.tsx:103-111 | the cursor moves by the current view's step |
| ServiceCalendar.Calendar.SetView | auto-crm-frontend/src/features/service/components/ServiceCalendar.tsx:25 | the view is the one chosen |
| PrintableInvoice.PadStart | auto-crm-frontend/src/features/service/components/PrintableInvoice.tsx:24 | the result is at least `width` long, keeps a longer text whole, ends with the text and is padded in front with the pad character only |
| PrintableInvoice.Render | auto-crm-frontend/src/features/service/components/PrintableInvoice.tsx:5-10 | nothing is rendered without a job; otherwise parts and labor default to 0, subtotal and total due are their sum, tax is 0, and the total due equals the billing dialog's total |
| PrintableInvoice.DigitsOfNat | auto-crm-frontend/src/features/service/components/PrintableInvoice.tsx:24 | a number's decimal text reads back as the number |
| PrintableInvoice.ZerosValue | auto-crm-frontend/src/features/service/components/PrintableInvoice.tsx:24 | a string of zeros reads as 0 |
| PrintableInvoice.LeadingZeros | auto-crm-frontend/src/features/service/components/PrintableInvoice.tsx:24 | leading zeros do not change the value read |
| PrintableInvoice.InvoiceNumberSpec | auto-crm-frontend/src/features/service/components/PrintableInvoice.tsx:24 | the invoice number is at least six digits, keeps an id of six or more digits whole, and reads back as the id |
| PrintableInvoice.SixDigits | auto-crm-frontend/src/features/service/components/PrintableInvoice.tsx:24 | an id of 100000 or more has at least six digits |
| PrintableInvoice.OneMoreDigit | auto-crm-frontend/src/features/service/components/PrintableInvoice.tsx:24 | dropping the last digit of a number of two or more digits shortens its text by one |
| ActivityLog.OrElse | auto-crm-frontend/src/features/dashboard/components/ActivityLog.tsx:47 | the text is the fallback or the value, and a non-empty value is used |
| ActivityLog.Unsorted | auto-crm-frontend/src/features/dashboard/components/ActivityLog.tsx:43-73 | leads, then service jobs, then appointments, each row mapped to its entry in order |
| ActivityLog.Feed | auto-crm-frontend/src/features/dashboard/components/ActivityLog.tsx:72-75 | the feed is a permutation of the mapped rows, newest first |
| ActivityLog.InFeed | auto-crm-frontend/src/features/dashboard/components/ActivityLog.tsx:72-75 | an entry is in the feed iff it is among the mapped rows |
| ActivityLog.FeedHasEveryRow | auto-crm-frontend/src/features/dashboard/components/ActivityLog.tsx:43-75 | every lead, service job and appointment has its entry in the feed |
| ActivityLog.FeedOnlyHasRows | auto-crm-frontend/src/features/dashboard/components/ActivityLog.tsx:43-75 | every entry comes from a row of its own kind and carries that kind's id prefix |
| ActivityLog.Filtered | auto-crm-frontend/src/features/dashboard/components/ActivityLog.tsx:86-100 | an entry is shown iff its type passes the filter and its title, subtitle or status contains the search ignoring case; a type filter shows only that type |
| ActivityLog.FilteredSpec | auto-crm-frontend/src/features/dashboard/components/ActivityLog.tsx:86-100 | the shown entries keep the feed's order and so stay newest first; ALL with no search shows all; an unknown filter acts as ALL |
| ActivityLog.FilterSamePredicate | auto-crm-frontend/src/features/dashboard/components/ActivityLog.tsx:86-100 | filtering by two predicates that agree everywhere gives the same list |
| ActivityLog.Log.constructor | auto-crm-frontend/src/features/dashboard/components/ActivityLog.tsx:21-24 | the log starts empty with the ALL filter and no search |
| ActivityLog.Log.Load | auto-crm-frontend/src/features/dashboard/components/ActivityLog.tsx:30-83 | the log holds the feed built from the three fetched lists |
| DashboardUi.Count | auto-crm-frontend/src/features/dashboard/components/Dashboard.tsx:50-54 | a count never exceeds the list's length |
| DashboardUi.CountSplit | auto-crm-frontend/src/features/dashboard/components/Dashboard.tsx:50-54 | every element is counted by a predicate or by its negation, never both |
| DashboardUi.CountAll | auto-crm-frontend/src/features/dashboard/components/Dashboard.tsx:50 | a count reaches the length exactly when every element is counted |
| DashboardUi.StatsOf | auto-crm-frontend/src/features/dashboard/components/Dashboard.tsx:50-57 | cars in stock are the AVAILABLE or RESERVED ones, active leads are those neither SOLD nor LOST, jobs are all records, and the value is the backend's figure |
| DashboardUi.StatsPartition | auto-crm-frontend/src/features/dashboard/components/Dashboard.tsx:50-54 | stock and non-stock cars make up the whole table, and so do open and closed leads |
| DashboardUi.AllEntries | auto-crm-frontend/src/features/dashboard/components/Dashboard.tsx:65-89 | leads, then service jobs, then appointments, each row mapped to its activity line in order |
| DashboardUi.Merged | auto-crm-frontend/src/features/dashboard/components/Dashboard.tsx:89-90 | the merged list is a permutation of the mapped rows, newest first |
| DashboardUi.Recent | auto-crm-frontend/src/features/dashboard/components/Dashboard.tsx:89-91 | the recent list holds min(5, total) lines, the head of the merged list, newest first, and no line left out is newer than the last one shown |
| DashboardUi.RecentFromSources | auto-crm-frontend/src/features/dashboard/components/Dashboard.tsx:65-91 | every recent line comes from a lead, a service job or an appointment |
| DashboardUi.Board.constructor | auto-crm-frontend/src/features/dashboard/components/Dashboard.tsx:10-22 | the dashboard starts at zero counters with no activity |
| DashboardUi.Board.Load | auto-crm-frontend/src/features/dashboard/components/Dashboard.tsx:28-98 | the counters and the recent list are those of the fetched lists |
| CustomerList.Filtered | auto-crm-frontend/src/features/customers/components/CustomerList.tsx:34-37 | a customer is listed iff the name contains the search ignoring case or the phone contains it exactly |
| CustomerList.FilteredSpec | auto-crm-frontend/src/features/customers/components/CustomerList.tsx:34-37 | the list keeps the directory's order, an empty search lists all, and each customer is found by its name and by its phone |
| CustomerList.Directory.constructor | auto-crm-frontend/src/features/customers/components/CustomerList.tsx:9-14 | the directory starts empty with no search and the profile closed |
| CustomerList.Directory.Load | auto-crm-frontend/src/features/customers/components/CustomerList.tsx:16-31 | the directory holds the fetched customers |
| CustomerList.Directory.Select | auto-crm-frontend/src/features/customers/components/CustomerList.tsx:74 | clicking a row opens that customer's profile |
| CustomerList.Directory.Close | auto-crm-frontend/src/features/customers/components/CustomerList.tsx:116-119 | closing clears the selection and the profile closes |
| AuthContext.Session.constructor | auto-crm-frontend/src/context/AuthContext.tsx:20-23 | a page starts from the stored token with no user, no manager rights and the loading flag up |
| AuthContext.Session.FetchProfile | auto-crm-frontend/src/context/AuthContext.tsx:26-38 | the header is set and the profile requested; an answer sets the user and manager flag, a failure leaves both |
| AuthContext.Session.Login | auto-crm-frontend/src/context/AuthContext.tsx:40-51 | refused credentials change nothing but the call log; an issued token is put in state and storage, then the profile is fetched with it |
| AuthContext.Session.Logout | auto-crm-frontend/src/context/AuthContext.tsx:53-59 | token, stored token, user, manager rights and header are all cleared |
| AuthContext.Session.Restore | auto-crm-frontend/src/context/AuthContext.tsx:61-67 | with a token the profile is fetched, without one nothing is called; either way loading ends |
| AuthContext.RestoreFailure | auto-crm-frontend/src/context/AuthContext.tsx:61-67 | a stored token whose profile cannot be fetched ends loaded, with the token but no user and no manager rights |
| AuthContext.LoginLogout | auto-crm-frontend/src/context/AuthContext.tsx:40-59 | signing out after signing in leaves no token, stored token, user, manager rights or header, whatever the answers |
| App.NavLinks | auto-crm-frontend/src/App.tsx:74-96 | the sidebar has the seven base links and Activity Log last, and the Financials and Team links iff the user is a manager |
| App.OneActiveLink | auto-crm-frontend/src/App.tsx:22-25 | the link targets are all different, so at most one link is highlighted |
| App.RouteFor | auto-crm-frontend/src/App.tsx:148-159 | a page is routed iff the path is one of the ten routes, whatever the manager flag |
| App.EveryLinkRouted | auto-crm-frontend/src/App.tsx:74-96 | every sidebar link, for managers and others, leads to a routed page |

## Left out

- Django ORM: queries, `select_related` and aggregations (`Sum`, `Count`, `TruncMonth`) are not modelled, and serializers only through the field validation stated for InventoryModels.InsertVehicle, InventoryViews.ApplyPatch and ServiceModels.RegisterVehicle; tables are sequences of records and an aggregate the views read directly is an input. Foreign keys are assumed to point at existing rows.
- InventoryModels.InsertVehicle: the integer range of `mileage` and `year` and the length of the photo's file name are not checked, and neither is a required field missing from the request, since a row always carries every field. The inventory serializer is not part of this model; it is taken as a plain model serializer over all fields. InventoryViews.ApplyPatch likewise leaves the range of a sent `mileage` unchecked.
- ServiceModels.RegisterVehicle: the integer range of `year` is not checked.
- Date parsing and formatting: `strptime`, `strftime`, `Date`, ISO strings and `toLocale*` are not modelled; dates are integer timestamps or `(year, month)` pairs. The service calendar is local civil time with no time zone or daylight-saving shifts.
- Floating point: backend money is integer cents rather than Python floats; `toFixed` and `toLocaleString` formatting is not modelled.
- FinanceView.SaleRow: the margin is the exact percentage; `round(margin, 1)` is not modelled.
- Analytics.DashboardAnalytics: the `lead_sources` list (a `values().annotate()` aggregate with no logic of its own) is not part of the result.
- UsersView: the password hash is not modelled, and neither is the 500 answer for a failing `create_user`.
- Case folding is ASCII only (`toLowerCase`, `upper()`, `lower()`), and trimming removes spaces only.
- ServiceViews.CleanScanMatchesAlpr: holds for ASCII text only. `isalnum()` is modelled as ASCII letters and digits, but Python's is Unicode-aware: on "é1234" the scan view keeps "É1234" while the ALPR helper keeps "1234".
- VinDecoder.ParseInt: whitespace is ASCII whitespace and digits are ASCII digits; `int()` also strips Unicode spaces and reads other Unicode decimal digits, which the model refuses.
- Desking.MonthlyPayment: the `isFinite` guard is modelled as "a zero denominator gives 0"; other non-finite results of floating-point arithmetic are not modelled. Loan terms are natural numbers of months.
- `Number(...)` and `parseFloat` are abstracted: a cost either parses to an integer or is `None`, which the `|| 0` default turns into 0. PlateScanner.CostsOf treats billing costs as integers although the source parses decimals.
- LeadsList, PlateScanner and ServiceCalendar refetch their lists after a failed status change; that refetch is not modelled, and a failed change leaves the locally rewritten list as it is. The reloads after a successful write (PlateScanner.Desk.CreateJob, PlateScanner.Desk.SaveBilling, ServiceCalendar.Calendar.Save) are modelled, with the server's rows as a parameter.
- UI-only state is not modelled: loading flags, preview URLs, `alert`/`confirm` dialogs (a confirmation is a boolean input), `setTimeout`, printing, notes fields and styling.
- AuthContext.Session.Restore: the React effect that runs after each token change is a separate method the caller invokes; React's scheduling of effects is not modelled.
- App.RouteFor: the Financials and Team routes are not restricted to managers in the route table; the model states this rather than adding a gate the source lacks.
- App.RouteFor: the path is taken as already normalised; React Router's case-insensitive matching and its tolerance of a trailing slash are not modelled.
- App.ShowLogin, InventoryList's edit/delete permission predicates and ActivityLog.Log.Shown are plain predicates or functions without contracts of their own; the lemmas around them state their properties.
- JavaScript `sort` with a comparator that yields NaN for unparsable dates is not modelled; all dates are integers.
- PrintableInvoice.InvoiceNumberSpec: covers non-negative ids only; `padStart` on the text of a negative id is not modelled.
- VinDecoderForm.ClearedFormNotSavable: follows from the definitions alone; it records the reset form's state.
- HTTP, OCR and image decoding: axios requests, the token interceptor, `Promise.all` fan-out, the NHTSA request, EasyOCR and OpenCV are not modelled. Their answers (rows, `(text, confidence)` tuples, `None` for a failure) are parameters. The scan endpoint's image-decoding failures are reduced to "no image supplied".
- SMS delivery: `send_sms_notification` only prints; a sent message is an entry appended to an outbox.
- Rendering, charts, print templates, login and team-management screens, the edit modal, settings, Django's URL configuration (`urls.py` routing tables), admin and serializers are not part of this model.

## Findings

| source | as written | input that shows it | evidently intended | confidence | as-written member | corrected member |
|---|---|---|---|---|---|---|
| crm-backend/auto_crm/service/views.py:96-111 | `send_service_sms` reads `service.customer_phone` (line 96) and `service.customer_name` (line 111) without `hasattr`; a stored `ServiceRecord` has neither attribute, so the `AttributeError` is caught at lines 132-133 and the answer is 500. The 400 for a missing phone (lines 107-108) is unreachable, and no text is ever sent for a stored record. The view is not routed in service/urls.py, so this path is reached only by a direct call | any stored service record, for example one whose vehicle's owner has a phone number | read both attributes defensively, answer 400 when no phone is found, and otherwise text the owner's phone | not executed | ServiceViews.SendServiceSmsAsWritten, ServiceViews.AsWrittenNeverSends | ServiceViews.SendServiceSms, ServiceViews.SendServiceSmsForStoredRecord |
