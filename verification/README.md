# Inventory dashboard business rules in Dafny

This project models the business rules of a React inventory dashboard backed by a hosted SQL store. It covers:

- products, orders and the order history;
- the dashboard cards and restock suggestions;
- the place-order form;
- the demand forecast;
- the order analytics;
- the CSV/PDF/spreadsheet report generators (two copies of one component, plus a simpler sales-report screen);
- the settings panels, the navigation bar, the demo authentication hook, and the in-memory mock hooks.

Every screen handler is a pure function from the screen's state and its inputs to the new state. Its inputs include the store's answer and the user's answer to a confirmation prompt. The outputs are the new state and the calls, files or alerts it produces.

Modelling conventions:

- **Money** is held in integer cents.
- **Timestamps** are abstract. A `Timestamp` carries the instant it denotes, its local calendar day and its local hour.
- **Store and environment inputs.** Every store call is a `Result` input value. The hooks turn a thrown value into text with `err instanceof Error ? err.message : 'An error occurred'`, so the error value records whether it is an `Error` instance.
- **JavaScript `||`.** `s || fallback` on strings and numbers is written out as "present and non-empty" / "present and non-zero" (`Wrappers.OrString`, `Wrappers.OrInt`).
- **JavaScript records.** A `Record<string, number>` accumulator is an association list in insertion order (`Assoc`).

Modules, one per source component (helpers first):

| module | models |
|---|---|
| `Wrappers`, `Text`, `Seqs`, `Assoc`, `Records`, `Csv` | shared helpers: optional values and JS truthiness, number-to-text and `split`/`join`, sums and filters, insertion-ordered records, the entity records, comma-separated text |
| `Auth` | `hooks/useAuth.ts` |
| `MockHooks` | `hooks/useProducts.ts`, `hooks/useOrders.ts` |
| `ProductStore` | `src/hooks/useProducts.ts` |
| `OrderRows` | `src/hooks/useOrders.ts` |
| `Dashboard` | `Dashboard.tsx` |
| `Stats` | `StatsCards.tsx` |
| `Restock` | `src/components/RestockSuggestions.tsx` |
| `OrderForm` | `src/components/OrderForm.tsx` |
| `Forecast` | `DemandForecasting.tsx` |
| `StockStatus` | the status badge of `src/components/DemandForecasting.tsx` |
| `Analytics` | `Analytics.tsx` |
| `ReportGenerator` | `ReportGenerator.tsx` and `src/components/ReportGenerator.tsx` (the `Variant` parameter selects the copy) |
| `Reports` | `Reports.tsx` |
| `AccountSettings` | `Settings.tsx` |
| `SettingsForm` | `src/components/Settings.tsx` |
| `Navbar` | `Navbar.tsx` |

Behaviour worth knowing, as the code has it:

- **PDF failure in the top-level report generator.** When the PDF library throws, the top-level report generator catches the error inside its PDF writer. It alerts the failure, and its success alert still fires afterwards. The copy under `src/components` alerts only the error (`ReportGenerator.PdfFailureAlerts`).
- **No stock check in `placeOrder`.** `placeOrder` in `src/hooks/useProducts.ts` writes `quantity - ordered` without checking stock. Only the order form checks stock.
- **A stored total of 0** counts as missing in the order history and is recomputed (`OrderRows.ZeroTotalRecomputed`).
- **Most popular product.** Analytics picks the first of the names with the highest units sold, by first occurrence, as a stable descending sort does (`Analytics.AggregateTop`).

## Model

| member | source | states |
|---|---|---|
| Auth.Attempt | hooks/useAuth.ts:7-23 | a sign-in attempt succeeds exactly when email and password are both non-empty; success stores and returns the demo user (id "1", the given email, name "Demo User"); failure returns the given message and leaves the state alone |
| Auth.SignIn | hooks/useAuth.ts:7-23 | succeeds iff email and password are non-empty; the signed-in user is the one returned, with id "1" and the given email; failure is "Invalid credentials" with the state unchanged |
| Auth.SignUp | hooks/useAuth.ts:25-41 | succeeds iff email and password are non-empty, storing the returned demo user; failure is "Sign up failed" with the state unchanged |
| Auth.SignUpLikeSignIn | hooks/useAuth.ts:7-41 | sign-up and sign-in leave the same state, and return the same user whenever sign-in succeeds; they differ only in the failure text |
| AccountSettings.InitialTheme | Settings.tsx:26-29 | the theme on mount is the stored value when it is a non-empty string and "light" otherwise |
| AccountSettings.Flip | Settings.tsx:84 | the toggled theme is always "light" or "dark", and it is "dark" exactly when the current one is "light" |
| AccountSettings.ToggleTheme | Settings.tsx:83-89 | the value stored and the new theme are the flipped theme; the message names the new mode; nothing else changes |
| AccountSettings.ToggleTwice | Settings.tsx:83-89 | toggling twice restores a "light" or "dark" theme |
| AccountSettings.ChangePassword | Settings.tsx:49-65 | the update call is made iff the new password has at least 6 characters; a short one only sets the length message; success clears the password field; failure reports the error text |
| AccountSettings.SaveStart | Settings.tsx:33-35 | a save begins with the saving flag set and the message blank, nothing else touched |
| AccountSettings.SaveFinish | Settings.tsx:36-46 | after the update call, the panel is never saving; the message says the profile was updated or gives the error text; nothing else changes |
| AccountSettings.SaveEnds | Settings.tsx:33-47 | a whole save ends not saving and leaves name, email, password field and theme as they were |
| AccountSettings.DeleteAccount | Settings.tsx:67-81 | the user is logged out exactly when the request is confirmed and the delete succeeds, and is then alerted "Account deleted. Logging out."; a cancelled request changes nothing; a failure shows the error text |
| Navbar.CapitalizeFirst | Navbar.tsx:34 | the length is kept; a leading ASCII lowercase letter becomes its uppercase letter, any other first character and the whole tail stay as they are |
| Navbar.DisplayName | Navbar.tsx:31-35 | the name is the full name if non-empty, else the metadata name if non-empty, else the capitalised part of the email before '@' if non-empty, else "User"; it is never empty |
| Navbar.DisplayNameFromEmail | Navbar.tsx:34 | when the name comes from an email containing '@' and not starting with it, the shown name is the capitalised first '@'-separated piece, a non-empty prefix of the email that the '@' follows |
| Navbar.Search | Navbar.tsx:19-23 | the search box holds the last value typed and the bell is untouched |
| Navbar.ToggleNotifications | Navbar.tsx:61 | a click flips whether the notifications show and keeps the search text |
| Navbar.ToggleNotificationsTwice | Navbar.tsx:61 | two clicks restore the state |
| Dashboard.RestockRequest | Dashboard.tsx:59-68 | a restock issues an update exactly when a product with that id is listed; the update targets that id with the first such product's quantity plus the amount |
| Dashboard.SuggestedRestockClears | Dashboard.tsx:59-68 | restocking a product (threshold not negative) by its suggested amount sets a quantity of at least twice the threshold, so it is no longer below threshold |
| Dashboard.DeleteRequest | Dashboard.tsx:41-48 | a delete is requested, for the given id, exactly when the user confirms |
| Dashboard.DeleteAlert | Dashboard.tsx:41-48 | an alert "Error deleting product: " + the error shows exactly when the delete was confirmed and the hook answered with a non-empty error |
| Dashboard.DeleteAlertIff | Dashboard.tsx:41-48 | a confirmed delete alerts exactly when the hook refuses it: always when signed out (naming "User not authenticated"), otherwise when the store fails with a non-empty message |
| Dashboard.RestockAlert | Dashboard.tsx:59-68 | an alert "Error restocking product: " + the error shows exactly when the id is listed and the update answered with a non-empty error |
| Dashboard.RestockAlertIff | Dashboard.tsx:59-68 | restocking a listed product alerts exactly when the update is refused: always when signed out, otherwise when the store fails with a non-empty message |
| Dashboard.ErrorAlert | Dashboard.tsx:34-39 | a handler alerts exactly when the hook's error is a non-empty string, and the alert is the handler's prefix followed by that error |
| Dashboard.AddAlertIff | Dashboard.tsx:34-39 | adding a product alerts "Error adding product: " + the error exactly when the insert is refused: always when signed out, otherwise when the store fails with a non-empty message |
| Dashboard.OrderUnknownAlerts | Dashboard.tsx:50-57 | ordering an unknown product while signed in alerts "Error placing order: Product not found" and makes no store call |
| Dashboard.ViewOf | Dashboard.tsx:70-90 | the spinner shows iff loading; the error view shows iff not loading and the error is a non-empty string, and it carries that text; the main view shows otherwise |
| StockStatus.StatusSpec | src/components/DemandForecasting.tsx:110-133 | "Urgent" exactly when stock is under half the predicted demand, "Monitor" when it is at least half but under the demand, "Good" when it is at least half and at least the demand |
| StockStatus.UrgentNeedsRestock | src/components/DemandForecasting.tsx:110-111 | with non-negative demand an urgent product also needs restocking, and "Good" means the stock covers the demand |
| StockStatus.RestockCell | src/components/DemandForecasting.tsx:125 | the cell reads "No restock needed" exactly when the suggestion is not positive, and otherwise the number followed by " units" |
| Stats.StatsOf | StatsCards.tsx:10-13 | the product card counts every product; the low-stock card counts exactly the products below threshold, so it lies between 0 and the product count; the value card is the sum of price × quantity and the units card the sum of quantities; an empty list gives four zeros |
| Stats.StatsAppend | StatsCards.tsx:10-13 | each card of two lists put together is the sum of that card for each list |
| Stats.LowCountIsSum | StatsCards.tsx:11 | the low-stock count is the number of products whose quantity is under their threshold, counted one by one |
| Stats.StatsPermutation | StatsCards.tsx:10-13 | the four cards do not depend on the order of the products |
| Restock.LowStockSpec | src/components/RestockSuggestions.tsx:13 | the low-stock list holds exactly the products whose quantity is under their threshold, each as many times as it is listed, in their original order, and is no longer than the product list |
| Restock.SuggestedRestock | src/components/RestockSuggestions.tsx:15-18 | the suggestion is at least 20 units and at least twice the threshold minus the stock, equals one of the two, and brings the stock to at least twice the threshold |
| Restock.UrgencySpec | src/components/RestockSuggestions.tsx:65-66 | "critical" exactly at zero stock; otherwise "high" exactly when twice the stock is under the threshold, and "medium" when it is not |
| Restock.HandleRestock | src/components/RestockSuggestions.tsx:20-25 | the restock callback runs exactly when the user confirms, with the product's id and exactly its suggested amount, which is at least 20 |
| Restock.Description | src/components/RestockSuggestions.tsx:58 | the card description starts with the decimal count of low-stock products |
| Restock.DescriptionPlural | src/components/RestockSuggestions.tsx:58 | the count is followed by " product below threshold" exactly when it is 1 and by " products below threshold" otherwise |
| Restock.SuggestionsFor | src/components/RestockSuggestions.tsx:63-66 | there is one suggestion per low-stock product, in order, carrying that product, its suggested quantity and its urgency |
| Restock.Card | src/components/RestockSuggestions.tsx:27-63 | the "all good" card shows exactly when no product is below threshold; otherwise the description counts them and the items are the low-stock products in order, each with its suggested amount and urgency |
| Restock.CardItems | src/components/RestockSuggestions.tsx:13-66 | every item is a listed product below its threshold; its amount is the suggested restock (at least 20 units) and is exactly what its restock button orders, and its badge is the product's urgency |
| OrderForm.Validate | src/components/OrderForm.tsx:15-38 | the checks run in source order: no selection, then an unknown id, then a quantity above the first matching product's stock, then a quantity not above 0; a selected known product with a quantity from 1 to its stock passes |
| OrderForm.Submit | src/components/OrderForm.tsx:17-44 | the order is handed on exactly when validation passes, with the selected id and quantity, and the form resets to no selection, quantity 1 and no error; otherwise only the error field changes, to the first failing check's message |
| OrderForm.SubmitPlacesIff | src/components/OrderForm.tsx:15-40 | an order goes out exactly when a product is selected, a product with that id is listed, and the quantity lies between 1 and the stock of the first such product |
| OrderForm.RejectKeepsInput | src/components/OrderForm.tsx:20-38 | a rejected submission keeps the selection and the quantity and shows a non-empty error |
| ProductStore.Fail | src/hooks/useProducts.ts:49-53 | a failed call records its message (the error's own text, or "An error occurred" for a non-Error value) as the hook error and returns it; the list is untouched |
| ProductStore.FetchProducts | src/hooks/useProducts.ts:10-29 | without a user nothing changes; with one, loading ends; a successful fetch replaces the list with the rows (none for a null answer) and a failed one keeps the list and records the message |
| ProductStore.AddProduct | src/hooks/useProducts.ts:35-54 | without a user the call returns "User not authenticated" and changes nothing; on success the inserted row goes first and no error is returned; on failure the list stays and the message is recorded and returned |
| ProductStore.ReplaceById | src/hooks/useProducts.ts:70 | the list keeps its length, and each entry is the returned row where the id matches and the old product elsewhere |
| ProductStore.UpdateProduct | src/hooks/useProducts.ts:56-77 | without a user "User not authenticated"; on success every product with that id is replaced by the returned row; on failure the list stays and the message is recorded and returned |
| ProductStore.DeleteProduct | src/hooks/useProducts.ts:79-98 | without a user "User not authenticated"; on success the products with that id are filtered out; on failure the list stays and the message is recorded and returned |
| ProductStore.DeleteSpec | src/hooks/useProducts.ts:91 | after a delete, a product is listed iff it was listed before with another id; every other product keeps its number of copies, and the survivors keep their order |
| ProductStore.UpdateSpec | src/hooks/useProducts.ts:70 | after an update the list has the same length, entries with another id are unchanged, and entries with that id are the returned row |
| ProductStore.PlaceOrder | src/hooks/useProducts.ts:100-142 | without a user "User not authenticated"; an id not in the list fails with "Product not found" before any store call; otherwise a "completed" order is inserted with total = price × quantity; only after that succeeds is the stock written as quantity minus the order, with no stock check; the returned row replaces the product, and each failure is recorded and returned |
| ProductStore.FailuresKeepList | src/hooks/useProducts.ts:49-141 | every failing add, update, delete or order leaves the product list as it was and returns a message; the hook error changes only when a user is signed in |
| OrderRows.Enrich | src/hooks/useOrders.ts:49-60 | an enriched row keeps the order's own fields; its status is the stored one if non-empty, else "completed"; its total is the stored one if non-zero, else quantity × the joined price; its name, price and SKU are the joined ones when present and non-empty (non-zero for the price), else "Unknown Product", 0 and the empty text |
| OrderRows.Transform | src/hooks/useOrders.ts:49 | a null answer gives no rows; otherwise there is one enriched row per fetched order, in the same order |
| OrderRows.EnrichAllAppend | src/hooks/useOrders.ts:49-60 | the enriched rows of two answers put together are the rows of each, so every row depends on its own order only |
| OrderRows.FetchOrders | src/hooks/useOrders.ts:22-68 | without a user nothing changes; with one, loading ends; success replaces the rows with the transformed answer, and failure keeps them and records the message |
| OrderRows.NoUserStaysLoading | src/hooks/useOrders.ts:19-23 | with no signed-in user the hook never leaves its initial loading state |
| OrderRows.ZeroTotalRecomputed | src/hooks/useOrders.ts:56 | a stored total of 0 counts as missing and is recomputed from the quantity and the joined price |
| MockHooks.Spread | hooks/useProducts.ts:14 | the merged object has the fields of both; a field given in the updates takes the updated value, and every other field keeps the old one |
| MockHooks.Add | hooks/useProducts.ts:9-12 | adding appends the item at the end, reports no error and leaves the loading and error flags alone (the order hook's add at hooks/useOrders.ts:9-12 is the same) |
| MockHooks.MergeAll | hooks/useProducts.ts:14 | the list keeps its length; the items with the id get the updates merged in, and the others stay as they were |
| MockHooks.Update | hooks/useOrders.ts:13-16 | an update merges the fields into every item with that id, reports no error and leaves the flags alone (the product hook's update at hooks/useProducts.ts:13-16 is the same) |
| MockHooks.Delete | hooks/useOrders.ts:17-20 | a delete filters out the items with that id, reports no error and leaves the flags alone (as in hooks/useProducts.ts:17-20) |
| MockHooks.PlaceOrder | hooks/useProducts.ts:21-24 | placing an order changes nothing and reports no error |
| MockHooks.DeleteSpec | hooks/useProducts.ts:17-20 | after a delete an item is listed iff it was listed before without that id; every item without the id survives as many times as it was listed, those with it not at all, and the survivors keep their order |
| MockHooks.UpdateSpec | hooks/useProducts.ts:13-16 | an item without the id is unchanged; an item with it keeps every field, and each field not in the updates keeps its value |
| MockHooks.StaysIdle | hooks/useProducts.ts:5-6 | from the initial state no call ever sets the loading flag or an error, and placing an order leaves the state as it is |
| SettingsForm.DotFromSpec | src/components/Settings.tsx:39 | the dot scan succeeds from a position exactly when a '.' with a character after it follows there, with no whitespace from that position through that character |
| SettingsForm.ValidEmailIff | src/components/Settings.tsx:39 | the executable scan accepts exactly the texts containing a substring matching `\S+@\S+\.\S+` |
| SettingsForm.Validate | src/components/Settings.tsx:34-57 | the email error is "required" exactly for an empty email and "invalid" for a non-empty one the pattern rejects; with a non-empty new password, there is a length error exactly when it is under 6 characters, a mismatch error exactly when the confirmation differs, and a current-password error exactly when that field is empty |
| SettingsForm.NoNewPasswordNoPasswordErrors | src/components/Settings.tsx:43-53 | with the new-password field empty, only the email can have an error |
| SettingsForm.InputChange | src/components/Settings.tsx:21-28 | typing stores the value in that field; the field's error, if it had one, is blanked; no error is added and every other field's error stays |
| SettingsForm.InputChangeOthers | src/components/Settings.tsx:23 | typing into one field leaves every other text field and all switches as they were |
| SettingsForm.SwitchChange | src/components/Settings.tsx:30-32 | a switch sets exactly its own flag and keeps the errors |
| SettingsForm.Save | src/components/Settings.tsx:59-70 | saving shows the validation errors; exactly a valid form alerts "Settings saved successfully!" and has its three password fields blanked, and an invalid one is kept as it was |
| SettingsForm.SaveValidIff | src/components/Settings.tsx:34-57 | a form passes exactly when the email is non-empty and matches the pattern and any new password has at least 6 characters, equals its confirmation and comes with the current password |
| SettingsForm.Cancel | src/components/Settings.tsx:72-83 | cancelling restores the default email, blanks the three passwords, sets the switches to on, on, off, and clears every error |
| SettingsForm.DefaultFormValid | src/components/Settings.tsx:9-17 | the default form passes validation |
| Forecast.Predicted | DemandForecasting.tsx:70 | the predicted demand is within one half of 11/10 of the total, halves going up, and is never below a non-negative total |
| Forecast.BuildForecast | DemandForecasting.tsx:47-71 | a null answer gives an empty forecast; otherwise the forecast has one entry per grouped entry, each with its predicted demand set from its total |
| Forecast.Predict | DemandForecasting.tsx:68-71 | the entries keep their order, ids, names, SKUs and totals, and each gets the demand predicted from its total |
| Forecast.FetchForecast | DemandForecasting.tsx:30-79 | a failed fetch keeps the previous forecast; a successful one shows the forecast built from the answer (`BuildForecast`, whose entries `Forecast.ForecastEntries` characterises), which is empty for a null or empty answer |
| Forecast.GroupIds | DemandForecasting.tsx:47-66 | the grouping has one entry per distinct product id, in the order the ids first occur |
| Forecast.AddOrderIds | DemandForecasting.tsx:53-65 | one loop step keeps the entry ids, appending the order's id only when it is new |
| Forecast.AddOrderFind | DemandForecasting.tsx:53-65 | one loop step adds the order's quantity to the entry with its id, or creates that entry from the order; no other entry changes |
| Forecast.FindGroup | DemandForecasting.tsx:47-66 | an id has an entry iff some order carries it; the entry has the first such order's name and SKU and the sum of the quantities of that id's orders |
| Forecast.ExpectedSnocOld | DemandForecasting.tsx:55-56 | a later order of a known product only adds its quantity to that product's expected total |
| Forecast.ExpectedSnocNew | DemandForecasting.tsx:57-64 | the first order of a product creates its expected entry with that order's name, SKU and quantity and a demand of 0 |
| Forecast.ForecastEntries | DemandForecasting.tsx:47-71 | the k-th forecast entry is the k-th distinct product id, with the first order's name and SKU, the summed quantity of that id, and the demand predicted from that sum |
| Forecast.ForecastIds | DemandForecasting.tsx:47-71 | the forecast lists every product id that has orders, each exactly once, by first occurrence |
| Forecast.ForecastTotal | DemandForecasting.tsx:47-71 | the forecast totals add up to all ordered units: no quantity is lost or counted twice |
| Forecast.GroupTotal | DemandForecasting.tsx:47-66 | the grouped totals add up to the sum of the order quantities |
| Analytics.Aggregate | Analytics.tsx:46-95 | a null or empty answer gives the fixed empty snapshot (revenue 0, no orders, "None", empty lists); otherwise the order count is the number of rows and the hour histogram has 24 buckets |
| Analytics.FetchAnalytics | Analytics.tsx:36-118 | a failed fetch keeps the previous snapshot; a successful one shows the snapshot aggregated from the answer (`Aggregate`, whose fields the `Analytics.Aggregate*` lemmas characterise) |
| Analytics.FoldKeys | Analytics.tsx:65-80 | the count, revenue and stock records all list the distinct product names, in the order they first occur |
| Analytics.StepKeys | Analytics.tsx:74-76 | one loop step keeps each record's keys and appends the order's name only when it is new |
| Analytics.FoldCount | Analytics.tsx:74 | a name's count is present iff some order carries that name, and then it is the units ordered under the name |
| Analytics.FoldRevenue | Analytics.tsx:72-75 | a name's revenue is present iff some order carries that name, and then it is the sum of quantity × price over those orders |
| Analytics.FoldStock | Analytics.tsx:76 | a name's stock is the product quantity joined to the last order carrying that name |
| Analytics.FoldHourly | Analytics.tsx:78-79 | the hour record has keys 0 to 23 only, and each hour's value is the number of orders placed in it |
| Analytics.StepGet | Analytics.tsx:74-76 | one loop step adds the order's quantity and revenue to its own name's entries and overwrites its stock, leaving every other name alone |
| Analytics.AbsentSums | Analytics.tsx:74-75 | a name no order carries has sold nothing and earned nothing |
| Analytics.HourBuckets | Analytics.tsx:92-95 | the k buckets are the hours 0 to k-1 in order, labelled "h:00", each with that hour's count or 0 |
| Analytics.RevenueList | Analytics.tsx:84 | the revenue list has one entry per record entry, in record order, with its name and value |
| Analytics.StockList | Analytics.tsx:86-90 | one entry per name, in order, with that name's count and stock (0 when absent) |
| Analytics.VelocityList | Analytics.tsx:99-102 | one entry per name, in order, with that name's count over the day count |
| Analytics.UniqueDays | Analytics.tsx:97-98 | the day divisor is at least 1, and for a non-empty list it is the number of distinct calendar days the orders fall on |
| Analytics.AggregateHours | Analytics.tsx:78-95 | the histogram has the 24 hours in order, each holding the number of orders placed in it, and the counts add up to the order count |
| Analytics.AggregateRevenue | Analytics.tsx:59-84 | the total revenue is the sum of quantity × price over the orders, and the per-product revenues add up to it |
| Analytics.AggregateNames | Analytics.tsx:84-102 | the revenue, stock-versus-sold and velocity lists each name every product once, in the order the names first occur |
| Analytics.AggregateValues | Analytics.tsx:72-102 | entry i of each list carries that product's units sold, its revenue, the stock joined to its last order, and its units over the number of distinct days |
| Analytics.AggregateLists | Analytics.tsx:84-102 | the three product lists are read off the count, revenue and stock records |
| Analytics.TallyTop | Analytics.tsx:82 | the first entry of a record with the maximal value is a key that occurs in the input, sold at least as much as any other, and sold strictly more than every name first seen before it |
| Analytics.AggregateTop | Analytics.tsx:82 | the most popular product is a product name that sold the most units; no name first seen before it sold as many (the first of the tied names wins, as under a stable descending sort) |
| Analytics.FoldCountAll | Analytics.tsx:74 | each distinct name's count entry holds its units sold |
| Analytics.AggregatePopular | Analytics.tsx:82 | the most popular product is the key of the record's first maximal entry |
| Analytics.OrdersBeforeAll | Analytics.tsx:78-79 | every order falls in exactly one of the 24 hours |
| ReportGenerator.FilterByRange | ReportGenerator.tsx:36-63 | "all" and unknown ranges keep every order; "today" keeps the orders on today's calendar day; week, month, quarter and year keep the orders at or after the cutoff; the result keeps the survivors in order, each as often as it occurred |
| ReportGenerator.OrderRows | ReportGenerator.tsx:69-77 | one CSV row per order, in order, each holding that order's cells |
| ReportGenerator.CsvReportLines | ReportGenerator.tsx:65-78 | when no field holds a comma or newline, the CSV reads back as the seven-column header line and then exactly one line per order, in order, whose fields are the id, the name in double quotes, the SKU, the quantity, the formatted date, the status and the total with two decimals |
| ReportGenerator.OrderRowsPlain | ReportGenerator.tsx:69-77 | orders whose fields hold no comma or newline give rows whose cells hold none either |
| ReportGenerator.CellsPlain | ReportGenerator.tsx:70-76 | an order whose fields hold no comma or newline gives cells that hold none either, the printed numbers included |
| ReportGenerator.SlugOneWord | ReportGenerator.tsx:174 | the file-name part of a one-word range caption is the caption in lower case |
| ReportGenerator.SlugTwoWords | ReportGenerator.tsx:174 | the file-name part of a two-word caption is the two words in lower case joined by '_' |
| ReportGenerator.FilenameOneWord | ReportGenerator.tsx:174 | for a one-word caption the file name is the report type, "_report_", the caption in lower case, "_" and the date part (before 'T') of the ISO timestamp |
| ReportGenerator.FilenameTwoWords | src/components/ReportGenerator.tsx:183 | for a caption "a b" the file name is the report type, "_report_", both words in lower case joined by "_", then "_" and the date part of the ISO timestamp |
| ReportGenerator.ShortIds | ReportGenerator.tsx:125 | one shortened id per order, in order: the first 8 characters of the id followed by "..." |
| ReportGenerator.Generate | ReportGenerator.tsx:150-199 | a missing type or range alerts "Please select both report type and date range", and orders still loading alert "Please wait for orders to load", each with no file and the generating flag left alone; otherwise the flag ends cleared; an empty filtered list alerts "No orders found for the selected date range"; an unknown format or a throwing spreadsheet library alerts the copy's general error only; a file is written exactly when the filtered list is non-empty, the format is csv, excel or pdf, and the export library does not throw (CSV needs no library); the file is named from the type, the range caption and the date, and holds the CSV text, the "Orders" sheet, or the PDF title, caption, order count, revenue sum and short ids; a file is followed by the success alert only |
| ReportGenerator.VariantsAgree | src/components/ReportGenerator.tsx:158-211 | the two copies of the component write the same file and leave the generating flag the same; only their alerts differ |
| ReportGenerator.PdfFailureAlerts | ReportGenerator.tsx:144-192 | when the PDF library throws, the top-level copy alerts the PDF failure and then still announces success, while the src copy (src/components/ReportGenerator.tsx:205-207) alerts only the general error |
| ReportGenerator.PdfAgreesWithCsv | ReportGenerator.tsx:119-120 | when no field of any order holds a comma or a newline, the PDF's order count is one less than the number of lines of the CSV the same click would write, and its revenue is the sum of the order totals |
| Reports.Rows | Reports.tsx:29-35 | one row per order, in fetch order, each holding that order's cells |
| Reports.Generate | Reports.tsx:16-73 | no file is saved and the single alert "Error generating report. Please try again." shows exactly when the query failed, returned null or returned no rows, and loading then ends cleared; otherwise, when building or saving the file throws, nothing is saved, nothing alerts and loading stays set; else loading ends cleared and the file is "sales_report_" + the millisecond clock + ".csv" holding the CSV text, or + ".pdf" holding the "Sales Report" table |
| Reports.ExportFailureStaysLoading | Reports.tsx:28-40 | with data in hand, a throw while building or saving the file leaves no file, no alert and the buttons disabled, where the same run without the throw saves a file |
| Reports.TablePlain | Reports.tsx:28-37 | orders whose fields hold no comma or newline give a header and rows whose cells hold none either |
| Reports.TableReadsBack | Reports.tsx:28-37 | such a CSV reads back as the five-column header line and then exactly one line per order, each splitting into that order's cells |
| Reports.StatusNeverEmpty | Reports.tsx:34-66 | the status cell is never empty, and it reads "Completed" exactly when the status is missing or empty or is itself "Completed" |
| Reports.CsvMatchesPdf | Reports.tsx:28-69 | when no field of any order holds a comma or a newline, the CSV and the PDF of the same fetch hold the same table: the CSV's first line reads back as the PDF head, and each later line reads back as the PDF body row of the same order |
| Csv.Lines | Reports.tsx:37 | one line per row, in order, each the row's cells joined with ',' |
| Csv.PlainAppend | Reports.tsx:37 | putting together rows free of commas and newlines gives rows free of them |
| Csv.ParseDocument | Reports.tsx:37 | with no comma or newline in any cell and at least one cell per row, splitting the text on newlines gives one line per row, and splitting each line on commas gives that row's cells |
| Text.NatToString | Reports.tsx:32 | the decimal text of a natural number is a non-empty string of digits, one digit long exactly for numbers under 10 |
| Text.ParseNatToString | Reports.tsx:32 | reading the printed digits back gives the number again |
| Text.IntToString | ReportGenerator.tsx:73 | a non-negative number prints as its digits and a negative one as '-' then the digits of its magnitude, using only digits and signs |
| Text.CentsToFixed2 | ReportGenerator.tsx:76 | an amount in cents prints with exactly two digits after a '.', with a leading '-' exactly when negative |
| Text.Split | Navbar.tsx:34 | splitting always gives at least one piece, and no piece holds the separator |
| Text.SplitJoin | Reports.tsx:37 | splitting a joined list on the separator gives the list back when no piece holds the separator |
| Text.JoinFree | Reports.tsx:37 | a character that no piece holds and that is not the separator does not occur in the joined text |
| Text.Before | ReportGenerator.tsx:174 | the text before the first separator is a prefix without the separator, followed in the input by the separator when it is shorter |
| Text.BeforeIsFirstPiece | ReportGenerator.tsx:174 | the text before the first separator is the first piece of the split |
| Text.LowerAscii | ReportGenerator.tsx:174 | lower-casing keeps the length, lowers each ASCII capital and leaves no ASCII capital, and keeps whitespace exactly where it was |
| Text.CollapseNone | ReportGenerator.tsx:174 | replacing whitespace runs leaves text without whitespace unchanged |
| Text.CollapseSpec | ReportGenerator.tsx:174 | with a non-whitespace fill, the result holds no whitespace and is no longer than the input |
| Text.CollapseWords | ReportGenerator.tsx:174 | two whitespace-free words around one whitespace character become the words around one fill character |
| Text.LowerAsciiAppend | ReportGenerator.tsx:174 | lower-casing a concatenation lower-cases each part |
| Wrappers.ErrorText | src/hooks/useProducts.ts:50 | the text of a failure is the error's own message when it is an Error instance, and "An error occurred" otherwise |
| Wrappers.OrString | src/hooks/useOrders.ts:55 | `s || fallback` on a string is the string when present and non-empty, and the fallback otherwise |
| Wrappers.OrInt | src/hooks/useOrders.ts:56 | `n || fallback` on a number is the number when present and non-zero, and the fallback otherwise |
| Records.FindById | src/components/OrderForm.tsx:15 | there is no result exactly when no product has the id; otherwise the result is a listed product with that id that no earlier product's id matches |
| Assoc.GetPresent | Analytics.tsx:74 | reading a key gives a value exactly when the key is present |
| Assoc.PutKeys | Analytics.tsx:74-76 | writing a key keeps every existing key in place and appends a new one at the end, as JavaScript objects order string keys |
| Assoc.PutGet | Analytics.tsx:74-76 | writing a key changes the value read at that key only |
| Assoc.TopIndex | Analytics.tsx:82 | the chosen entry holds a maximal value, and every entry before it holds a strictly smaller one, as a stable descending sort puts first |
| Assoc.GetAt | Analytics.tsx:86-90 | with distinct keys, reading entry i's key gives entry i's value |
| Assoc.AddToSum | Analytics.tsx:75 | `record[k] = (record[k] or 0) + v` raises the sum of the values by exactly v |
| Seqs.SumByAppend | StatsCards.tsx:12-13 | the sum over a concatenation is the sum of the two sums |
| Seqs.SumByPermutation | StatsCards.tsx:12-13 | a sum does not depend on the order of its terms |
| Seqs.FilterSpec | StatsCards.tsx:11 | a filter keeps exactly the elements satisfying the test, each as often as it occurs, in their original order, and is no longer than the input |
| Seqs.FilterLengthIsSum | StatsCards.tsx:11 | the length of a filter is the number of elements satisfying the test |
| Seqs.FilterAppend | Analytics.tsx:78-79 | the filter of a concatenation is the concatenation of the filters |
| Seqs.FirstIndex | Analytics.tsx:82 | the position found holds the value, and no earlier position does |
| Seqs.DistinctSpec | Analytics.tsx:84-86 | the distinct list holds every value once and nothing else, in the order the values first occur |
| Seqs.DistinctSnoc | Analytics.tsx:74 | adding a value at the end adds it to the distinct list only when it is new |

## Left out

- The hosted store, `localStorage`, the DOM, downloads, `window.location.reload` and `console` output are I/O. Each store answer, stored value and confirmation answer is an input; the sign-out and page reload are the `LoggedOut` result of `AccountSettings.DeleteAccount`.
- The clock. Now's calendar day, the cutoff instant that `setDate`/`setMonth`/`setFullYear` compute for each range, `toISOString()` and `Date.now()` are parameters. Calendar arithmetic is not modelled.
- Text formatting by library code. `formatDate` and the `yyyy-MM-dd` formatter are parameters. `formatCurrency` is not modelled, so the spreadsheet is reduced to its sheet name and row count, and the PDF of the report generator to its title, caption, totals and shortened ids.
- The alert delay (`setTimeout`), React rendering, effects, and concurrent calls. The alerts of one click are listed in the order they appear.
- A store request that rejects instead of answering with an error: the handlers of the sales-report screen would then stay loading with no alert, as for `exportFails`; the model takes every store answer as a returned value or error.
- The static parts of the screens: tabs, the notification list, the chart data of `src/components/DemandForecasting.tsx` and its mock data. The components listed as context (`src/components/Analytics.tsx`, `src/components/Navbar.tsx`, `Sidebar.tsx`, the UI kit) are not part of this model.
- Product rows are taken as the store returns them. The store's own filtering by user and its ordering by creation time are not modelled.
- Analytics.FoldKeys: JavaScript objects list integer-like keys such as "42" first, in numeric order. The model keeps every name in insertion order, which matches the source only for product names that are not array indices.
- Analytics.VelocityList: `+(sold / days).toFixed(2)` is kept as the exact pair `sold`, `days`; the floating-point rounding to two decimals is not modelled.
- Forecast.Predicted: `Math.round(total * 1.1)` is modelled as 11/10 of the total rounded half up. The double product can land just beyond an exact half; for a negative total such as -35 that rounds down instead of up. Totals beyond 2^50 also lose precision. Neither case is modelled.
- Text.CentsToFixed2: amounts are whole cents, so `toFixed(2)` needs no rounding. The contract states the shape of the text (sign, a '.', two decimals), not that the digits spell the amount.
- Restock.Description: the contract states only that the text starts with the count; the full singular/plural text is stated by `Restock.DescriptionPlural`.
- ReportGenerator.SlugOneWord: file names are proved for captions of one or two whitespace-free words, which covers all six range captions, not for arbitrary captions.
- ReportGenerator.CsvReportLines: the CSV writers do not escape commas, quotes or newlines inside fields. The read-back property is stated for fields free of commas and newlines only.
- Reports.TableReadsBack: same condition as above, fields free of commas and newlines.
- ReportGenerator.PdfAgreesWithCsv: the PDF's order count matches the CSV line count only when no field holds a comma or a newline; otherwise the unescaped CSV splits differently and nothing is promised.
- Reports.CsvMatchesPdf: the CSV reads back as the PDF table only when no field holds a comma or a newline, for the same reason.
- Lengths and `slice` count UTF-16 code units in JavaScript and characters here. The difference shows only outside the Basic Multilingual Plane (the 6-character password rules, the 8-character id prefix).
- Numeric form input: `Number('')` gives 0 and other non-numeric input gives `NaN`. The order form's quantity is an integer here, so the `NaN` path (every comparison false, the order goes through) is not modelled.
- MockHooks.Spread: the untyped objects of the in-memory hooks are modelled as maps from field name to value text; value types other than text are not modelled.
- Error values without a `message`: the settings panel then shows "undefined" in its text. Here every error carries a message.
