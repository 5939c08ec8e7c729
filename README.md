# Dai Ko Chiya ordering flow, modelled in Dafny

This project models the ordering flow of the Dai Ko Chiya tea shop web app:

- a customer scans a table's QR code, browses the menu, fills a cart and places an order;
- the shop's admin sees the order arrive over the store's change feed and moves it through pending, preparing, ready or cancelled;
- the customer's order tracker follows those changes.

Each source file of the flow has its own module, named after that file.

- **Pure rules are functions.** This covers the cart updaters, the discounted-price formula and the totals built on it, the row-to-order mapping, the change-feed reducers, the menu filters, the status tables of both pages, the checkout and save checks, the table link and its read-back, and the settings guards.
- **Stateful code is classes.**
  - `AppContext.AppProvider` holds the provider's state cells. `createOrder`, `updateOrderStatus` and the change-feed handler are methods on it.
  - The pages that change their own state step by step are classes too: `CustomerMenuPage`, `MenuManagementPage` and `SettingsPage`.
  - QR "download all" is a loop.
- **The store is an input.** Every query result, insert outcome and change-feed payload is passed in as a parameter. Each write the code sends is appended to a log field, so the contracts can say exactly what was sent.
- **Prices are exact rationals.** They are Dafny `real` values. Text parsing follows JavaScript's `parseInt`, template-literal decimals and `URLSearchParams.get`, written out in `JsText`.

Main results:

- **Order totals.** An order's total equals its cart's total, and also the sum of its item snapshots (`AppContext.BuildOrder`). `createOrder` clears the cart and sets the tracked order only when both inserts succeed.
- **Cart buttons.** Plus then minus on a cart line restores the cart. Plus and minus change the count by one and the total by one unit price.
- **Change feed.**
  - Every change-feed payload can be delivered twice without changing the outcome.
  - INSERT keeps order ids unique and moves the order to the head.
  - DELETE and remove-from-cart splice out exactly one entry and keep the rest in order.
- **Table links.** A printed table link, read back by the customer page, fills the checkout field with a value that checkout accepts as that table. Checkout has no range check: "0", "-3" and "7b" are all accepted.
- **Stuck started orders.** The status write maps "started" to "preparing", and nothing maps it back. So the change feed returns a started order under a label that neither page knows:
  - the admin sees "Unknown" and has no button left to mark the order ready;
  - the "Preparing" counter and filter miss the order;
  - the customer's tracker shows "Unknown" with no step filled.

  `StatusFlow.StartedOrderIsStuck` proves this. The model keeps the write as the code has it.
- **Zero discounts.** The menu card's discount badge would print a bare "0" for a zero discount. Items read from the store never have one, because the row mapping drops it (`MenuCard.StoreItemsShowNoZeroBadge`).

## Model

| member | source | states |
|---|---|---|
| Types.ParseCategory | src/types/index.ts:8 | a label parses to a category exactly when it is the name of one of tea, snacks, extra |
| Types.CategoryNamesRoundTrip | src/types/index.ts:8 | every category's name parses back to it, and "all" is not a category |
| Types.ParseStatus | src/types/index.ts:24 | a label parses to a status exactly when it is the name of one of the four statuses |
| Types.StatusNamesDistinct | src/types/index.ts:24 | status names round-trip, are pairwise distinct, and "preparing" is not one of them |
| Pricing.DiscountedPrice | src/components/customer/MenuCard.tsx:14-16 | without a truthy discount the price is unchanged; with one the reduction is price × d / 100; for d in [0, 100] the result lies between 0 and the price; the price is unchanged exactly when there is no discount or the price is 0 |
| Pricing.CartTotal | src/pages/CustomerMenu.tsx:55-58 | the sum of discounted price × quantity is non-negative when every line total is |
| Pricing.CartItemCount | src/pages/CustomerMenu.tsx:60 | with positive quantities the item count is at least the number of lines |
| Pricing.Snapshot | src/context/AppContext.tsx:346-351 | a snapshot keeps the line's id, name and quantity, and its price × quantity is the line total |
| Pricing.Snapshots | src/context/AppContext.tsx:346-351 | one snapshot per cart line, in cart order |
| Pricing.SnapshotTotalMatchesCart | src/context/AppContext.tsx:310-351 | the snapshots of a cart add up to the cart total |
| Pricing.CartTotalAppend | src/context/AppContext.tsx:310-315 | the total of two carts joined is the sum of their totals |
| Pricing.CartItemCountAppend | src/pages/CustomerMenu.tsx:60 | the item count of two carts joined is the sum of their counts |
| Pricing.Round | src/pages/CustomerMenu.tsx:217 | the shown amount is the nearest integer, halves rounded up |
| Pricing.RoundWhole | src/pages/CustomerMenu.tsx:217 | whole amounts are shown unchanged |
| Cart.AddToCart | src/context/AppContext.tsx:279-289 | a present id has its quantity raised by exactly one and no other line changes; an absent id is appended at the end with quantity 1; unique ids and positive quantities are kept |
| Cart.RemoveFromCart | src/context/AppContext.tsx:291-293 | no line with the id is left, every other line stays, and an absent id changes nothing |
| Cart.RemoveIsSplice | src/context/AppContext.tsx:291-293 | with unique ids, removing a line's id splices out that line alone and keeps the rest in order |
| Cart.UpdateQuantity | src/context/AppContext.tsx:295-303 | a quantity ≤ 0 is exactly remove; otherwise only the matching line's quantity is overwritten, with no upper bound; an absent id changes nothing |
| Cart.RemoveKeepsInvariants | src/context/AppContext.tsx:291-293 | removal keeps ids unique and quantities positive |
| Cart.UpdateKeepsInvariants | src/context/AppContext.tsx:295-303 | updating keeps ids unique and quantities positive |
| Cart.PointUpdateSums | src/context/AppContext.tsx:295-303 | changing one line changes the count and the total by exactly that line's difference |
| Cart.OneMoreSums | src/context/AppContext.tsx:283-285 | one more unit on a line adds one to the count and one unit price to the total |
| Cart.AddExistingSums | src/context/AppContext.tsx:281-285 | adding an item already in the cart adds one to the count and its unit price to the total |
| Cart.AddNewSums | src/context/AppContext.tsx:287 | adding a new item adds one to the count and its unit price to the total |
| Cart.RemoveUndoesAddOfNew | src/context/AppContext.tsx:287-293 | removing a newly added item gives the cart back |
| Realtime.ItemsOf | src/context/AppContext.tsx:217-222 | a failed item lookup gives no items; otherwise one item per row |
| Realtime.RowToOrder | src/context/AppContext.tsx:224-234 | id, table, total and timestamps are copied, and the status label is kept as it comes |
| Realtime.WithoutOrder | src/context/AppContext.tsx:236 | exactly the entries with another id remain, and an absent id changes nothing |
| Realtime.ApplyInsert | src/context/AppContext.tsx:236 | the new order is at the head and is the only entry with its id; every other entry is kept |
| Realtime.InsertIdempotent | src/context/AppContext.tsx:236 | receiving the same INSERT twice is receiving it once |
| Realtime.InsertKeepsIdsUnique | src/context/AppContext.tsx:236 | INSERT keeps the ids of the admin list unique |
| Realtime.InsertMovesToHead | src/context/AppContext.tsx:236 | with unique ids, INSERT of a known id moves it to the head and keeps the others in order |
| Realtime.ApplyUpdate | src/context/AppContext.tsx:244-254 | only status and updatedAt change, and only on entries with the event's id |
| Realtime.UpdateUnmatched | src/context/AppContext.tsx:244-254 | an UPDATE for an id not in the list changes nothing |
| Realtime.UpdateIdempotent | src/context/AppContext.tsx:244-254 | receiving the same UPDATE twice is receiving it once |
| Realtime.PatchCurrent | src/context/AppContext.tsx:257-265 | the tracked order is patched only when its id is the event's id |
| Realtime.ApplyDelete | src/context/AppContext.tsx:266-269 | every entry with the id leaves, and the rest stay |
| Realtime.DeleteIsSplice | src/context/AppContext.tsx:268 | with unique ids, DELETE splices out the one entry and keeps the rest in order |
| Realtime.ApplyEvent | src/context/AppContext.tsx:210-269 | INSERT and DELETE never touch the tracked order; each event kind applies its own reducer |
| Realtime.RedeliveryIdempotent | src/context/AppContext.tsx:210-269 | any payload delivered twice has the effect of delivering it once |
| Realtime.UpdateReachesBothViews | src/context/AppContext.tsx:242-265 | after an UPDATE the tracked order and its list entry agree on status and update time |
| AppContext.DbStatus | src/context/AppContext.tsx:374 | every status but started is stored under its own name; the stored label parses back to the status, except started, which parses to nothing |
| AppContext.DbStatusInjective | src/context/AppContext.tsx:374 | distinct statuses are stored under distinct labels |
| AppContext.RowToMenuItem | src/context/AppContext.tsx:131-142 | id, name, price, category, availability and both flags are copied; a missing description becomes empty; an empty image becomes absent and any other image is kept; a zero discount becomes absent and any other discount keeps its value, so a present discount is always truthy; the price charged is unchanged by the mapping |
| AppContext.MenuItemsOf | src/context/AppContext.tsx:131-142 | one item per row, in row order |
| AppContext.OrdersOf | src/context/AppContext.tsx:161-189 | one order per fetched row, in row order |
| AppContext.ItemInsertRows | src/context/AppContext.tsx:332-338 | one row per cart line with the order id, the item's id and name, and price × quantity equal to the line total |
| AppContext.BuildOrder | src/context/AppContext.tsx:346-366 | the new order is pending, at the requested table, with one snapshot per line; its total is the cart total and also the sum of its snapshots |
| AppContext.AppProvider.constructor | src/context/AppContext.tsx:52-58 | the menu, cart and orders start empty and loading; there is no tracked order |
| AppContext.AppProvider.FetchMenuItems | src/context/AppContext.tsx:123-145 | on success the mapped rows replace the menu; loading ends either way |
| AppContext.AppProvider.FetchOrders | src/context/AppContext.tsx:152-193 | on success the mapped orders replace the list; loading ends either way |
| AppContext.AppProvider.SetShopSettings | src/context/AppContext.tsx:58 | the settings are replaced |
| AppContext.AppProvider.AddToCart | src/context/AppContext.tsx:279-289 | the cart becomes `Cart.AddToCart` of the old cart |
| AppContext.AppProvider.RemoveFromCart | src/context/AppContext.tsx:291-293 | the cart becomes `Cart.RemoveFromCart` of the old cart |
| AppContext.AppProvider.UpdateQuantity | src/context/AppContext.tsx:295-303 | the cart becomes `Cart.UpdateQuantity` of the old cart |
| AppContext.AppProvider.ClearCart | src/context/AppContext.tsx:305 | the cart is empty |
| AppContext.AppProvider.CreateOrder | src/context/AppContext.tsx:307-371 | an empty cart writes nothing; otherwise the order row is written (pending, with the cart total), then the item rows if that succeeded; a result comes back exactly when both inserts succeed, and only then is the order tracked and the cart emptied |
| AppContext.AppProvider.UpdateOrderStatus | src/context/AppContext.tsx:373-384 | exactly one write, with the stored label, for any status and whatever the order's present status |
| AppContext.AppProvider.OnOrderChange | src/context/AppContext.tsx:207-270 | both views become `Realtime.ApplyEvent` of the old views; one alert is played per INSERT when sound alerts are on |
| CustomerMenu.VisibleItems | src/pages/CustomerMenu.tsx:51-53 | an item is listed exactly when it is on the menu, available, and of the tab's category unless the tab is "all" |
| CustomerMenu.AllTabIsUnionOfCategories | src/pages/CustomerMenu.tsx:51-53 | an item is under "all" exactly when it is under its own category's tab |
| CustomerMenu.InitialTableField | src/pages/CustomerMenu.tsx:19-33 | the field starts as the link's `table` parameter, or empty without one |
| CustomerMenu.TableInFragmentIgnored | src/pages/CustomerMenu.tsx:19-33 | a `table=` that comes after the link's `#` is not read, and the field starts empty |
| CustomerMenu.CheckoutTable | src/pages/CustomerMenu.tsx:62-66 | an empty field or one parseInt cannot read is refused; anything else is parseInt's value |
| CustomerMenu.CheckoutAcceptsAnyNumber | src/pages/CustomerMenu.tsx:62-69 | every natural number typed in full is accepted as itself, with no check against the table count |
| CustomerMenu.CheckoutAcceptsZero | src/pages/CustomerMenu.tsx:62-69 | table 0 is accepted |
| CustomerMenu.CheckoutAcceptsNegative | src/pages/CustomerMenu.tsx:62-69 | a negative table is accepted |
| CustomerMenu.CheckoutReadsLeadingDigits | src/pages/CustomerMenu.tsx:62-69 | text after the digits is ignored; text before them is refused |
| CustomerMenu.CartButtonShown | src/pages/CustomerMenu.tsx:208 | with positive quantities the cart button shows exactly when the cart is not empty |
| CustomerMenu.CurrentScreen | src/pages/CustomerMenu.tsx:81-93 | the closed screen shows exactly when the shop is closed; the tracker shows exactly when the shop is open, the flag is set and an order is tracked; the menu shows exactly in every other case of an open shop |
| CustomerMenu.CustomerMenuPage.constructor | src/pages/CustomerMenu.tsx:19-35 | the page starts on "all", with dialogs closed and the table field read from the link |
| CustomerMenu.CustomerMenuPage.OnCurrentOrder | src/pages/CustomerMenu.tsx:38-42 | a tracked order sets the tracking flag; nothing clears it |
| CustomerMenu.CustomerMenuPage.EditTable | src/pages/CustomerMenu.tsx:265 | the table field holds the text exactly as typed, unchecked |
| CustomerMenu.CustomerMenuPage.OrderMore | src/pages/CustomerMenu.tsx:108 | the tracking flag is cleared |
| CustomerMenu.CustomerMenuPage.HandleCheckout | src/pages/CustomerMenu.tsx:62-79 | an unusable table field writes nothing and changes nothing; otherwise an order is placed exactly when the cart is not empty and both inserts succeed, and then the dialog and the cart sheet close |
| CartItemCard.ShownUnitPrice | src/components/customer/CartItemCard.tsx:18-27 | the shown unit price is within a half of the discounted price |
| CartItemCard.Minus | src/components/customer/CartItemCard.tsx:36 | at quantity 1 minus removes the line; above it only that line goes down by one |
| CartItemCard.Plus | src/components/customer/CartItemCard.tsx:47 | from a non-negative quantity only that line goes up by one; a quantity that would still be at most 0 removes the line |
| CartItemCard.Remove | src/components/customer/CartItemCard.tsx:56 | the line's id leaves the cart and every other line stays |
| CartItemCard.PlusSums | src/components/customer/CartItemCard.tsx:47 | plus adds one to the count and one unit price to the total |
| CartItemCard.MinusSums | src/components/customer/CartItemCard.tsx:36 | minus above one takes one from the count and one unit price from the total |
| CartItemCard.PlusThenMinus | src/components/customer/CartItemCard.tsx:36-47 | for quantity ≥ 1, plus then minus on the re-rendered line gives the cart back |
| MenuCard.View | src/components/customer/MenuCard.tsx:14-85 | the shown price is the rounded discounted price; the badge and the struck price appear exactly for a truthy discount; the add button is enabled and the note hidden exactly when the item is available |
| MenuCard.OnAdd | src/components/customer/MenuCard.tsx:75 | the item itself goes into the cart: as a new last line with quantity 1 when it was absent, with the cart's length unchanged when it was present |
| MenuCard.AddedAtShownPrice | src/components/customer/MenuCard.tsx:64-75 | a newly added item is charged the price its card showed before rounding |
| MenuCard.StruckPriceIsHigher | src/components/customer/MenuCard.tsx:66-70 | a struck price is shown only above the price charged |
| MenuCard.StoreItemsShowNoZeroBadge | src/components/customer/MenuCard.tsx:45-49 | items read from the store never print a bare 0 where the badge goes |
| MenuCard.ZeroDiscountShowsZero | src/components/customer/MenuCard.tsx:45-49 | an item holding a zero discount prints "0" where the badge goes |
| Render.NumberAnd | src/components/customer/MenuCard.tsx:45 | a number guard shows its element exactly for a non-zero number and prints "0" exactly for zero |
| Render.FlagAnd | src/components/customer/MenuCard.tsx:31-42 | a flag guard shows its element exactly when the flag is true, and never prints text |
| OrdersPage.WithStatus | src/pages/dashboard/Orders.tsx:33 | exactly the orders with that label remain |
| OrdersPage.FilterOrders | src/pages/dashboard/Orders.tsx:31-33 | "all" lists every order; any other filter lists exactly the orders with that label |
| OrdersPage.BadgeLabel | src/pages/dashboard/Orders.tsx:35-48 | started shows "Preparing", and a label outside the four shows "Unknown" |
| OrdersPage.OrderStats | src/pages/dashboard/Orders.tsx:55-59 | the counters count the pending, started and ready labels |
| OrdersPage.StatsBounded | src/pages/dashboard/Orders.tsx:55-59 | the three counters never add up to more than the orders listed |
| OrdersPage.Actions | src/pages/dashboard/Orders.tsx:172-213 | pending offers start and cancel, started offers ready, anything else offers nothing |
| OrdersPage.NoActionFromFinal | src/pages/dashboard/Orders.tsx:172 | ready, cancelled and unknown labels offer no action |
| OrdersPage.ActionsMoveOn | src/pages/dashboard/Orders.tsx:174-213 | no action leads back to pending or to the present status |
| OrderStatusCard.Config | src/components/customer/OrderStatusCard.tsx:10-53 | the step is between 0 and 3, and is 0 exactly for cancelled or unknown labels; an unknown label shows "Unknown" and no description |
| OrderStatusCard.Progress | src/components/customer/OrderStatusCard.tsx:87 | for a known label with the tracker shown, the filled share is between 0 and 1, and it is 1 exactly for ready |
| OrderStatusCard.FilledCircles | src/components/customer/OrderStatusCard.tsx:91-101 | circle s is filled exactly when s is at most the step |
| OrderStatusCard.ProgressAlongWorkflow | src/components/customer/OrderStatusCard.tsx:18-34 | pending, started and ready fill 0, ½ and 1 of the line and 1, 2 and 3 circles |
| OrderStatusCard.UnknownLabelTracker | src/components/customer/OrderStatusCard.tsx:44-51 | an unknown label still draws the tracker, at −½ width with no circle filled |
| StatusFlow.OtherActionsReadBack | src/context/AppContext.tsx:374 | every status but started is read back as itself, with the same text on both pages |
| StatusFlow.PagesAgreeOnLabels | src/pages/dashboard/Orders.tsx:35-48 | the admin badge and the customer card give every label the same text |
| StatusFlow.StartedOrderIsStuck | src/context/AppContext.tsx:374 | a started order read back from the feed shows "Unknown" with no action, is missing from the started filter, and shows the customer "Unknown" at step 0 |
| StatusFlow.FinalWritesReachTracker | src/context/AppContext.tsx:257-265 | a ready write completes the customer's tracker; a cancelled write hides it |
| StatusFlow.ActionsAdvanceStep | src/pages/dashboard/Orders.tsx:172-213 | each action other than cancel advances the tracker by exactly one step; cancel hides it |
| MenuManagement.AdminItems | src/pages/dashboard/MenuManagement.tsx:75-77 | "all" lists every item, available or not; any other tab lists exactly its category |
| MenuManagement.CustomersSeeAvailableAdminItems | src/pages/dashboard/MenuManagement.tsx:75-77 | customers see exactly the available part of the admin's list under the same tab |
| MenuManagement.BlankForm | src/pages/dashboard/MenuManagement.tsx:79-91 | the blank form has an empty name and description, price 0, tea, discount 0 (no discount), neither flag set, and is available |
| MenuManagement.FormOf | src/pages/dashboard/MenuManagement.tsx:94-98 | the edit form carries the item's name, description, price, category, discount, both flags and availability |
| MenuManagement.NumberOrZero | src/pages/dashboard/MenuManagement.tsx:347 | an unreadable entry becomes 0, a readable one is kept |
| MenuManagement.CheckSave | src/pages/dashboard/MenuManagement.tsx:101-109 | an empty name or zero price is refused first, then a missing shop; only then does saving proceed |
| MenuManagement.SaveLetsOddValuesThrough | src/pages/dashboard/MenuManagement.tsx:101-109 | a negative price and a discount over 100 pass the checks |
| MenuManagement.FieldsOf | src/pages/dashboard/MenuManagement.tsx:115-142 | the fields sent are the form's name, description, price, category, discount, both flags and availability |
| MenuManagement.EditUnchangedSendsItem | src/pages/dashboard/MenuManagement.tsx:94-142 | editing an item and saving it unchanged sends every field of the item except its id and image |
| MenuManagement.BlankDiscountReadsBackAbsent | src/context/AppContext.tsx:141 | a menu row holding the blank form's discount, 0, is read as an item without a discount, charged at full price |
| MenuManagement.MenuManagementPage.constructor | src/pages/dashboard/MenuManagement.tsx:41-57 | the page starts on "all" with the blank form, nothing open and nothing sent |
| MenuManagement.MenuManagementPage.OpenAddDialog | src/pages/dashboard/MenuManagement.tsx:79-92 | no item is edited, the form is blank, and the dialog opens |
| MenuManagement.MenuManagementPage.OpenEditDialog | src/pages/dashboard/MenuManagement.tsx:94-98 | the item is edited with its fields in the form, and the dialog opens |
| MenuManagement.MenuManagementPage.EditPrice | src/pages/dashboard/MenuManagement.tsx:347 | the price becomes the entry, or 0 |
| MenuManagement.MenuManagementPage.EditDiscount | src/pages/dashboard/MenuManagement.tsx:377 | the discount becomes the entry, or 0 |
| MenuManagement.MenuManagementPage.HandleSave | src/pages/dashboard/MenuManagement.tsx:100-157 | a refused form sends nothing; otherwise one update for an edited item or one add for a new one is sent, and the dialog closes on success |
| MenuManagement.MenuManagementPage.HandleDelete | src/pages/dashboard/MenuManagement.tsx:159-175 | one delete is sent and the confirmation closes |
| MenuManagement.MenuManagementPage.ToggleAvailability | src/pages/dashboard/MenuManagement.tsx:177-182 | one request carrying only the flipped availability is sent |
| DashboardLayout.PendingCount | src/components/dashboard/DashboardLayout.tsx:30 | the badge count is the pending counter of the Orders page, and 0 exactly when no order is pending |
| DashboardLayout.BadgeAsWritten | src/components/dashboard/DashboardLayout.tsx:138-142 | a count of 0 prints "0"; the badge shows exactly for a positive count |
| DashboardLayout.NavBadge | src/components/dashboard/DashboardLayout.tsx:138-142 | the badge shows the count exactly when it is positive and never prints stray text |
| DashboardLayout.StrayZeroWithoutPendingOrders | src/components/dashboard/DashboardLayout.tsx:30-138 | with no pending order the written badge prints "0" |
| DashboardLayout.StrayZeroOnEmptyList | src/components/dashboard/DashboardLayout.tsx:30-138 | an empty order list prints "0" on the Orders entry |
| DashboardLayout.NavBadgeCorrect | src/components/dashboard/DashboardLayout.tsx:138-142 | the intended badge agrees with the written one for a positive count and shows nothing otherwise |
| DashboardLayout.NavItems | src/components/dashboard/DashboardLayout.tsx:47-53 | five entries; only Orders carries a badge, the pending count guarded as written |
| DashboardLayout.OrdersEntryBadge | src/components/dashboard/DashboardLayout.tsx:49-142 | the Orders entry shows the intended badge when something is pending, and the stray "0" otherwise |
| DashboardLayout.Toggled | src/components/dashboard/DashboardLayout.tsx:43-45 | isOpen flips and every other setting is kept |
| DashboardLayout.ToggleTwice | src/components/dashboard/DashboardLayout.tsx:43-45 | switching twice restores the settings |
| DashboardLayout.ClosingHidesMenu | src/components/dashboard/DashboardLayout.tsx:43-45 | closing the shop puts a customer menu rendered under the same provider on the closed screen |
| DashboardLayout.ToggleShopStatus | src/components/dashboard/DashboardLayout.tsx:43-45 | the provider's settings become the toggled settings |
| QrCodes.TableUrl | src/pages/dashboard/QRCodes.tsx:17-19 | for an origin without `?` or `#`, the link's `table` parameter reads back as the table's decimal form |
| QrCodes.TableUrlQuery | src/pages/dashboard/QRCodes.tsx:17-19 | the `table` parameter of a table link is the table's decimal form |
| QrCodes.TableLinkRoundTrip | src/pages/dashboard/QRCodes.tsx:17-19 | a scanned link fills the checkout field with the table's number, and checkout accepts it as that table |
| QrCodes.TableNumbers | src/pages/dashboard/QRCodes.tsx:124 | tables 1 to the count, ascending, each once; none for a count ≤ 0 |
| QrCodes.FileName | src/pages/dashboard/QRCodes.tsx:63 | "table-", the decimal table number, "-qr.png" |
| QrCodes.FileNamesDistinct | src/pages/dashboard/QRCodes.tsx:63 | different tables get different file names |
| QrCodes.DownloadAll | src/pages/dashboard/QRCodes.tsx:71-80 | one file per table 1 to the count, in table order |
| QrCodes.DefaultLogoNotice | src/pages/dashboard/QRCodes.tsx:111 | the notice shows exactly while no logo is set |
| Settings.LogoAccepted | src/pages/dashboard/Settings.tsx:103-106 | a logo is accepted exactly when it is at most 2 MiB |
| Settings.TablesFromInput | src/pages/dashboard/Settings.tsx:199 | an unreadable or zero entry becomes 1, and any other value, negative included, is kept |
| Settings.NegativeTablesLeaveNoCodes | src/pages/dashboard/Settings.tsx:199 | a negative count is kept, and the QR page then lists no table |
| Settings.ShopUrl | src/pages/dashboard/Settings.tsx:36 | origin + "/shop/" + slug + "/menu" with a shop, origin + "/menu" without |
| Settings.Requested | src/pages/dashboard/Settings.tsx:40-44 | each of name, description, table count, open, sound and notifications takes the request's value when it carries one and keeps its old value otherwise; logo and link are kept |
| Settings.SaveChangesFormFields | src/pages/dashboard/Settings.tsx:38-44 | Save changes exactly the name, description and table count to the form's values |
| Settings.SwitchChangesOneField | src/pages/dashboard/Settings.tsx:119-125 | each switch's request changes that switch only |
| Settings.SettingsPage.constructor | src/pages/dashboard/Settings.tsx:26-33 | the form starts from the current settings and nothing is sent |
| Settings.SettingsPage.EditTables | src/pages/dashboard/Settings.tsx:199 | the table count becomes the parsed entry with its fallback |
| Settings.SettingsPage.HandleSave | src/pages/dashboard/Settings.tsx:38-52 | exactly the name, description and table count are sent |
| Settings.SettingsPage.HandleLogoUpload | src/pages/dashboard/Settings.tsx:99-117 | no file or one over the limit uploads nothing; otherwise the file is uploaded |
| Settings.SettingsPage.ToggleOpen | src/pages/dashboard/Settings.tsx:119-121 | one request carrying only isOpen |
| Settings.SettingsPage.ToggleSoundAlerts | src/pages/dashboard/Settings.tsx:123-125 | one request carrying only soundAlerts |
| Settings.SettingsPage.RequestNotificationPermission | src/pages/dashboard/Settings.tsx:79-97 | notifications are turned on only when supported and granted; otherwise nothing is sent |
| Settings.SettingsPage.NotificationSwitch | src/pages/dashboard/Settings.tsx:357-366 | switching on asks for permission; switching off sends the off request at once |
| JsText.TrimStart | src/pages/CustomerMenu.tsx:63 | the leading white space of the text, and only that, is dropped |
| JsText.LeadingDigits | src/pages/CustomerMenu.tsx:63 | the count of leading digits, stopping at the first non-digit |
| JsText.ParseInt | src/pages/CustomerMenu.tsx:63 | a number comes back only when the text holds a digit |
| JsText.Decimal | src/pages/dashboard/QRCodes.tsx:18 | a non-empty string of decimal digits |
| JsText.DecimalValue | src/pages/dashboard/QRCodes.tsx:18 | reading the decimal form gives the number back |
| JsText.ParseIntDecimal | src/pages/CustomerMenu.tsx:69 | parseInt reads back every decimal form |
| JsText.ParseIntSigned | src/pages/CustomerMenu.tsx:69 | a leading minus or plus sign is honoured |
| JsText.ParseIntIgnoresTail | src/pages/CustomerMenu.tsx:69 | parseInt stops at the first non-digit |
| JsText.ParseIntRejectsLeadingText | src/pages/CustomerMenu.tsx:63 | text starting with a letter is NaN |
| JsText.IndexOf | src/pages/CustomerMenu.tsx:19 | the first position of the character, or none when absent |
| JsText.Split | src/pages/CustomerMenu.tsx:19 | the pieces never contain the separator; text without it is one piece |
| JsText.FirstValue | src/pages/CustomerMenu.tsx:19 | the value of the first pair with the name, or none when no pair has it |
| JsText.QueryAfterFirstMark | src/pages/CustomerMenu.tsx:19 | in a URL without `#`, the search part is what follows the first `?` |
| JsText.QueryInFragmentIsIgnored | src/pages/CustomerMenu.tsx:19 | a `?` after the first `#` belongs to the fragment: the search part is empty and no parameter is found |
| JsText.SinglePairParam | src/pages/CustomerMenu.tsx:19 | a lone name=value pair reads back as its value |
| Seqs.Filter | src/context/AppContext.tsx:292 | exactly the elements that pass remain |
| Seqs.FilterRemovesOne | src/context/AppContext.tsx:292 | when one element fails, filtering splices it out and keeps the rest in order |
| Seqs.ExclusiveFilterCounts | src/pages/dashboard/Orders.tsx:55-59 | three exclusive filters select at most every element once |
| MockData.StatedTotalsMatch | src/data/mockData.ts:92-129 | the stated totals 110, 205 and 170 are the cart totals of the demonstration orders |
| MockData.TwentyPercentOff | src/components/customer/MenuCard.tsx:14-16 | 100 at 20% off is charged 80 a unit, 160 for two |

## Left out

- The store is not modelled. Queries, inserts, updates, uploads and the change-feed subscription are represented by their results, passed in as parameters, and by the writes and requests logged on the classes.
- The provider's menu, settings and upload operations are not defined in src/context/AppContext.tsx, even though the pages call them: `addMenuItem`, `updateMenuItem`, `deleteMenuItem`, `currentShop`, `updateShopSettings` and `uploadShopLogo`. Their effect on the store is not part of this model. The pages' requests to them are recorded. `Settings.Requested` states what a settings request asks for.
- Sign-in, sign-up, sign-out and the admin role check belong to the identity provider and are not modelled. Login.tsx is a screen over them.
- Concurrency is not modelled.
  - Change-feed payloads are applied one at a time.
  - Re-subscribing when the sound setting or the tracked order changes is not modelled.
  - The UPDATE handler compares ids with the tracked order as the subscription saw it. The model uses the present value.
- The notification sound, the test sound, the browser notification popup, the clipboard and the QR canvas drawing are not modelled. Sounds are counted in `alertsPlayed`.
- Floating point is not modelled. Prices and totals are exact rationals. `Number(...)` on prices is the identity, so a price cannot be NaN. `Round` is exact half-up rounding on rationals.
- JsText.ParseInt: the parsed number is an exact integer. JavaScript's `parseInt` returns a double, so it rounds past 2^53 and gives `Infinity` for very long digit strings; the model does neither.
- CustomerMenu.CheckoutTable: the submitted table is the exact integer typed, with no rounding past 2^53 and no `Infinity`, because it is read with `JsText.ParseInt`.
- Settings.TablesFromInput: the table count is the exact integer typed, with no rounding past 2^53 and no `Infinity`, because it is read with `JsText.ParseInt`.
- `parseFloat` is not modelled. A number field's entry is passed in as what `parseFloat` returned, with `None` for NaN.
- Dates are opaque strings. `formatDistanceToNow` is not modelled.
- `type="number"` inputs: the browser's cleaning of their values is not modelled. The raw text goes to `parseInt`.
- URL decoding is not modelled: no percent-decoding and no `+` for a space. `QrCodes.TableUrl` states its read-back for an origin without `?` or `#`, which a URL origin never contains.
- The `customerName` and `notes` fields are not modelled. The row mapping sets them, but `Order` in src/types/index.ts does not declare them.
- `Order.items` follows the code, not the interface. The interface declares cart items; the provider builds id, name, price and quantity only (src/context/AppContext.tsx:168-173, 346-351).
- `AppContext.RowToMenuItem` takes the row's category as one of the three categories. The code casts the stored value without a check.
- The menu and order queries' `created_at` ordering is not modelled. Rows are taken in the order given.
- Overview.tsx and App.tsx are display and routing only, and are not modelled.
- Form setters that only copy a field are not modelled: the menu form's name, description, category and three flags, and the settings form's name and description. Category icons, styling, toasts, the expanded-order toggle and the sidebar are not modelled either.
- The open/closed switch (src/components/dashboard/DashboardLayout.tsx:43-45) changes only the provider's local settings (src/context/AppContext.tsx:58) and writes nothing to the store, so customers on other devices keep seeing the shop open. `DashboardLayout.ClosingHidesMenu` is about a customer menu under the same provider only.
- The initial shop settings are a parameter of `AppContext.AppProvider.constructor`, not the demonstration settings.
- OrdersPage.FilterOrders: its contract states which orders are listed, not their order. Order is kept because the list is built with `Seqs.Filter`, whose order behaviour is stated by `Seqs.FilterAppend` and `Seqs.FilterRemovesOne`.
- Seqs.Filter: its contract states membership, not order. `Seqs.FilterAppend` and `Seqs.FilterRemovesOne` state the order.
- Settings.SettingsPage.HandleLogoUpload: the URL the upload returns only chooses a toast and is not modelled.

## Findings

| source | as written | input that shows it | evidently intended | confidence | as-written member | corrected member |
|---|---|---|---|---|---|---|
| src/components/dashboard/DashboardLayout.tsx:138 | the Orders entry's badge is guarded by the pending count itself, and React prints a count of 0 as the text "0" | an order list with no pending order, e.g. the empty list | no badge at all when nothing is pending | high; not executed | DashboardLayout.StrayZeroWithoutPendingOrders | DashboardLayout.NavBadge |
