# Restaurant companion app — verified model of its client-side logic

The restaurant companion app is an Android client (Kotlin, Jetpack Compose) for a restaurant
back end: orders, menu items and the order items that link them. Almost all of it is screens
and calls to a REST/WebSocket back end; this project models the part of it that is logic:

- the view models' observable cells and how one repository outcome (a value, null, or an
  exception) updates them, including the live upsert of an order pushed over the WebSocket
  (`OrderViewModels`, `OrderItemViewModels`);
- the "delete all data" cascade of the settings screen, a small state machine that requests
  three bulk deletes one after another (`Settings`);
- the forms of the order-item editor, the add-item sheet, the menu-item editor and creator and
  the create-order sheet: validators, input filters, dirty tracking, button enablement, the
  exact record each submit builds, and the reset after a result (`EditOrderItem`,
  `AddMenuItemToOrder`, `MenuItemDetail`, `CreateMenuItem`, `CreateOrder`);
- the navigation routes and their builders (`Navigation`).

`KotlinText` gives exact definitions of the Kotlin/JVM string functions the screens call
(`isWhitespace`, `isBlank`, `trim`, `toIntOrNull`, `Int.toString`, `Long.toInt`, the two
`Regex` filters). It also defines `toLongOrNull`, `split` and `joinToString`, which the app
does not call: they only serve to state that a built route reads back into its ids
(`Navigation.EditOrderItemRouteSplits`, `Navigation.DetailRoutesSplit`). `Model` holds the
entities, the shape of a repository outcome, and the oracle for `Double` text.

State that the source changes in place is modelled as classes whose fields are the
`MutableLiveData` cells or the remembered `MutableState` values; each method's contract states
the whole new state through a snapshot datatype (`Cells()`, `Form()`, `State()`) updated
only in the fields it changes. The validators, builders and the settings transition function
are pure functions, and the properties that relate them are lemmas or their `ensures`.
Each repository call, network push and `Double` conversion is a parameter.

## Model

| member | source | states |
|---|---|---|
| KotlinText.LongToInt | app/src/main/java/com/osg/restaurantcompanionapp/view/EditOrderItemView.kt:421 | `Long.toInt()` keeps the low 32 bits: the result is an Int congruent to the input modulo 2^32, and equal to it when the input is already in Int range |
| KotlinText.Trim | app/src/main/java/com/osg/restaurantcompanionapp/view/EditOrderItemView.kt:418 | `trim()` never lengthens the text, gives "" exactly for blank text, and leaves no whitespace at either end |
| KotlinText.TrimIsInfix | app/src/main/java/com/osg/restaurantcompanionapp/view/EditOrderItemView.kt:418 | the result of `trim()` is a contiguous piece of the input with only whitespace before and after it |
| KotlinText.TrimIdempotent | app/src/main/java/com/osg/restaurantcompanionapp/view/EditOrderItemView.kt:418 | trimming twice is the same as trimming once |
| KotlinText.ToIntOrNull | app/src/main/java/com/osg/restaurantcompanionapp/view/EditOrderItemView.kt:47 | a parsed value is always in Int range, and only non-blank text parses |
| KotlinText.ToLongOrNull | app/src/main/java/com/osg/restaurantcompanionapp/navigation/NavItem.kt:25 | a parsed value is always in Long range, and only non-blank text parses |
| KotlinText.IntToString | app/src/main/java/com/osg/restaurantcompanionapp/view/EditOrderItemView.kt:37 | the decimal rendering of an Int: its digits denote the number, with a leading '-' exactly for negatives and no leading zero except for 0 itself |
| KotlinText.ParseIntToString | app/src/main/java/com/osg/restaurantcompanionapp/view/EditOrderItemView.kt:37-50 | parsing the decimal rendering of any in-range number gives the number back |
| KotlinText.IntToStringChars | app/src/main/java/com/osg/restaurantcompanionapp/navigation/NavItem.kt:25 | a rendered number contains no character other than digits and '-', so in particular no '/' |
| KotlinText.PositiveIntTextIff | app/src/main/java/com/osg/restaurantcompanionapp/view/EditOrderItemView.kt:46-51 | "not blank, toIntOrNull non-null and > 0" holds exactly for an optional '+' followed by digits denoting 1..2147483647 |
| KotlinText.MatchesDecimalIff | app/src/main/java/com/osg/restaurantcompanionapp/view/MenuItemDetailView.kt:303 | `^\d*\.?\d*$` matches exactly the texts made of digits and at most one '.' |
| KotlinText.Split | app/src/main/java/com/osg/restaurantcompanionapp/navigation/NavItem.kt:25 | `split` yields at least one piece and no piece contains the separator |
| KotlinText.SplitJoin | app/src/main/java/com/osg/restaurantcompanionapp/navigation/NavItem.kt:25 | splitting a join of separator-free pieces gives the pieces back |
| KotlinText.JoinSplit | app/src/main/java/com/osg/restaurantcompanionapp/navigation/NavItem.kt:25 | joining the pieces of a split gives the text back |
| Model.ContentFor | app/src/main/java/com/osg/restaurantcompanionapp/view/EditOrderItemView.kt:157-175 | both editors (also MenuItemDetailView.kt:164-180) show the form exactly when the item is present, a loading indicator exactly when it is absent before the form was filled, and "not found" exactly when it is absent after |
| Model.Subtotal | app/src/main/java/com/osg/restaurantcompanionapp/view/EditOrderItemView.kt:420 | price times quantity, as both the order-item editor and the add-item sheet (AddMenuItemToOrderView.kt:163) compute it; no contract of its own, its use is stated by EditOrderItem.UpdatedItem and AddMenuItemToOrder.NewOrderItem |
| OrderViewModels.IndexOfFirst | app/src/main/java/com/osg/restaurantcompanionapp/viewmodel/OrderViewModel.kt:114 | `indexOfFirst` is -1 exactly when no order has the id, and otherwise the first position holding that id |
| OrderViewModels.IndexOfFirstIsFirstMatch | app/src/main/java/com/osg/restaurantcompanionapp/viewmodel/OrderViewModel.kt:114 | any position holding the id with no earlier match is the one `indexOfFirst` finds |
| OrderViewModels.Upsert | app/src/main/java/com/osg/restaurantcompanionapp/viewmodel/OrderViewModel.kt:110-127 | the published list always contains the pushed order and grows by at most one entry; its full behaviour is stated by UpsertReplacesFirstMatch, UpsertInsertsAtFront and UpsertContents |
| OrderViewModels.UpsertReplacesFirstMatch | app/src/main/java/com/osg/restaurantcompanionapp/viewmodel/OrderViewModel.kt:114-119 | when an order with the id exists, the first such entry is replaced, the length is unchanged and every other position is unchanged |
| OrderViewModels.UpsertInsertsAtFront | app/src/main/java/com/osg/restaurantcompanionapp/viewmodel/OrderViewModel.kt:120-123 | when no order has the id, the order is inserted at index 0 and the old entries follow in order |
| OrderViewModels.UpsertIntoEmpty | app/src/main/java/com/osg/restaurantcompanionapp/viewmodel/OrderViewModel.kt:111 | upserting into an empty list gives exactly the one order |
| OrderViewModels.UpsertContents | app/src/main/java/com/osg/restaurantcompanionapp/viewmodel/OrderViewModel.kt:110-127 | afterwards the list contains the order, keeps every entry with another id, and holds nothing else |
| OrderViewModels.UpsertIdempotent | app/src/main/java/com/osg/restaurantcompanionapp/viewmodel/OrderViewModel.kt:110-127 | applying the same order a second time leaves the list unchanged |
| OrderViewModels.OrderViewModel.constructor | app/src/main/java/com/osg/restaurantcompanionapp/viewmodel/OrderViewModel.kt:17-36 | every cell starts unset |
| OrderViewModels.OrderViewModel.OnAdd | app/src/main/java/com/osg/restaurantcompanionapp/viewmodel/OrderViewModel.kt:38-40 | `showAddScreen` becomes true, nothing else changes |
| OrderViewModels.OrderViewModel.OnAddScreenShown | app/src/main/java/com/osg/restaurantcompanionapp/viewmodel/OrderViewModel.kt:42-44 | `showAddScreen` becomes false, nothing else changes |
| OrderViewModels.OrderViewModel.FetchOrders | app/src/main/java/com/osg/restaurantcompanionapp/viewmodel/OrderViewModel.kt:46-58 | `fetchOrders`/`fetchActiveOrders` publish the repository's list or null in the orders cell only |
| OrderViewModels.OrderViewModel.FetchOrderById | app/src/main/java/com/osg/restaurantcompanionapp/viewmodel/OrderViewModel.kt:60-65 | the repository's order or null lands in the single-order cell only |
| OrderViewModels.OrderViewModel.StartCreateOrder | app/src/main/java/com/osg/restaurantcompanionapp/viewmodel/OrderViewModel.kt:69-70 | `createOrder` first clears both the error and the result cell |
| OrderViewModels.OrderViewModel.FinishCreateOrder | app/src/main/java/com/osg/restaurantcompanionapp/viewmodel/OrderViewModel.kt:71-80 | a non-null result sets the result cell; null sets the fixed Spanish error text; an exception sets its message or the fallback text |
| OrderViewModels.OrderViewModel.CreateOrder | app/src/main/java/com/osg/restaurantcompanionapp/viewmodel/OrderViewModel.kt:67-82 | after the call exactly one of result and error is set, each determined by the outcome, and no other cell changes |
| OrderViewModels.OrderViewModel.ResetCreateOrderResult | app/src/main/java/com/osg/restaurantcompanionapp/viewmodel/OrderViewModel.kt:84-86 | the create result becomes null, nothing else changes |
| OrderViewModels.OrderViewModel.ResetCreateOrderError | app/src/main/java/com/osg/restaurantcompanionapp/viewmodel/OrderViewModel.kt:88-90 | the create error becomes null, nothing else changes |
| OrderViewModels.OrderViewModel.UpdateOrder | app/src/main/java/com/osg/restaurantcompanionapp/viewmodel/OrderViewModel.kt:92-97 | the repository's result lands in the update cell only |
| OrderViewModels.OrderViewModel.DeleteOrder | app/src/main/java/com/osg/restaurantcompanionapp/viewmodel/OrderViewModel.kt:99-104 | the repository's result lands in the delete cell only |
| OrderViewModels.OrderViewModel.AddOrUpdateOrder | app/src/main/java/com/osg/restaurantcompanionapp/viewmodel/OrderViewModel.kt:110-128 | the orders cell becomes the upsert of the pushed order into the current list (null read as empty, so exactly [order] then); no other cell changes |
| OrderItemViewModels.CantLoadMessage | app/src/main/java/com/osg/restaurantcompanionapp/viewmodel/OrderItemViewModel.kt:77-78 | the message is "Cant load order items for order ID " followed by text that `toIntOrNull` reads back as the Int order id |
| OrderItemViewModels.OrderItemViewModel.constructor | app/src/main/java/com/osg/restaurantcompanionapp/viewmodel/OrderItemViewModel.kt:16-44 | every cell starts unset except `isLoading`, which starts false |
| OrderItemViewModels.OrderItemViewModel.OnAdd | app/src/main/java/com/osg/restaurantcompanionapp/viewmodel/OrderItemViewModel.kt:46-48 | `showAddScreen` becomes true, nothing else changes |
| OrderItemViewModels.OrderItemViewModel.OnAddScreenShown | app/src/main/java/com/osg/restaurantcompanionapp/viewmodel/OrderItemViewModel.kt:50-52 | `showAddScreen` becomes false, nothing else changes |
| OrderItemViewModels.OrderItemViewModel.FetchOrderItems | app/src/main/java/com/osg/restaurantcompanionapp/viewmodel/OrderItemViewModel.kt:54-59 | the repository's list or null lands in the all-items cell only |
| OrderItemViewModels.OrderItemViewModel.FetchOrderItemByIds | app/src/main/java/com/osg/restaurantcompanionapp/viewmodel/OrderItemViewModel.kt:62-67 | the repository's item or null lands in the single-item cell only |
| OrderItemViewModels.OrderItemViewModel.StartFetchOrderItemsByOrderId | app/src/main/java/com/osg/restaurantcompanionapp/viewmodel/OrderItemViewModel.kt:71-72 | loading becomes true and the error is cleared, nothing else changes |
| OrderItemViewModels.OrderItemViewModel.FinishFetchOrderItemsByOrderId | app/src/main/java/com/osg/restaurantcompanionapp/viewmodel/OrderItemViewModel.kt:73-86 | a list is stored in the by-order cell; null sets the "Cant load" message and keeps the list; an exception sets its message or "Unknown error" and an empty list; loading ends false in every case |
| OrderItemViewModels.OrderItemViewModel.FetchOrderItemsByOrderId | app/src/main/java/com/osg/restaurantcompanionapp/viewmodel/OrderItemViewModel.kt:69-87 | the whole call: loading ends false, the error is null exactly when a list came back, and only the loading, error and by-order cells change |
| OrderItemViewModels.OrderItemViewModel.FetchOrderItemsByMenuItemId | app/src/main/java/com/osg/restaurantcompanionapp/viewmodel/OrderItemViewModel.kt:89-94 | the repository's list or null lands in the by-menu-item cell only |
| OrderItemViewModels.OrderItemViewModel.CreateOrderItem | app/src/main/java/com/osg/restaurantcompanionapp/viewmodel/OrderItemViewModel.kt:96-101 | the repository's result lands unchanged in the create cell only |
| OrderItemViewModels.OrderItemViewModel.UpdateOrderItem | app/src/main/java/com/osg/restaurantcompanionapp/viewmodel/OrderItemViewModel.kt:103-108 | the repository's result lands unchanged in the update cell only |
| OrderItemViewModels.OrderItemViewModel.ResetUpdateOrderItemResult | app/src/main/java/com/osg/restaurantcompanionapp/viewmodel/OrderItemViewModel.kt:110-112 | the update cell becomes null, nothing else changes |
| OrderItemViewModels.OrderItemViewModel.DeleteOrderItem | app/src/main/java/com/osg/restaurantcompanionapp/viewmodel/OrderItemViewModel.kt:114-119 | the repository's result lands unchanged in the delete cell only |
| Settings.ExtendInCascadeOrder | app/src/main/java/com/osg/restaurantcompanionapp/view/SettingsView.kt:46-58 | appending OrderItems, or Orders right after OrderItems, or MenuItems right after Orders, keeps the request log in cascade order |
| Settings.Next | app/src/main/java/com/osg/restaurantcompanionapp/view/SettingsView.kt:46-64 | every screen transition keeps the cascade invariant (step in 0..3, requests in cascade order, last request matching the step) and requests at most one new delete; a new order-items request is made exactly on a confirmation |
| Settings.RunKeepsValid | app/src/main/java/com/osg/restaurantcompanionapp/view/SettingsView.kt:40 | from a valid screen, any sequence of events leaves it valid, so `deletionStep` is always one of 0..3 |
| Settings.AtMostOncePerConfirmation | app/src/main/java/com/osg/restaurantcompanionapp/view/SettingsView.kt:112-116 | between two requests for orders, or for menu items, there is always a new order-items request, which by Settings.Next only a confirmation makes |
| Settings.StepAdvancesOnlyOnResult | app/src/main/java/com/osg/restaurantcompanionapp/view/SettingsView.kt:46-58 | the step moves 1→2 only on a non-null order-items result, 2→3 only on a non-null orders result, and 0→1 only on a confirmation |
| Settings.DismissKeepsStep | app/src/main/java/com/osg/restaurantcompanionapp/view/SettingsView.kt:117-119 | dismissing closes the dialog and changes nothing else |
| Settings.FullCascade | app/src/main/java/com/osg/restaurantcompanionapp/view/SettingsView.kt:46-64 | click, confirm and the three results request order items, orders and menu items in that order and return the step to 0 |
| Settings.SettingsView.constructor | app/src/main/java/com/osg/restaurantcompanionapp/view/SettingsView.kt:39-40 | the dialog is hidden, the step is 0, nothing requested |
| Settings.SettingsView.OnDeleteAllClick | app/src/main/java/com/osg/restaurantcompanionapp/view/SettingsView.kt:88 | the dialog is shown |
| Settings.SettingsView.OnConfirm | app/src/main/java/com/osg/restaurantcompanionapp/view/SettingsView.kt:112-116 | the step becomes 1, order items are requested, the dialog closes |
| Settings.SettingsView.OnDismiss | app/src/main/java/com/osg/restaurantcompanionapp/view/SettingsView.kt:117-119 | the dialog closes; step and requests are unchanged |
| Settings.SettingsView.OnOrderItemsDeleted | app/src/main/java/com/osg/restaurantcompanionapp/view/SettingsView.kt:46-51 | follows `Next`: at step 1 with a result, step 2 and an orders request; otherwise nothing |
| Settings.SettingsView.OnOrdersDeleted | app/src/main/java/com/osg/restaurantcompanionapp/view/SettingsView.kt:53-58 | follows `Next`: at step 2 with a result, step 3 and a menu-items request; otherwise nothing |
| Settings.SettingsView.OnMenuItemsDeleted | app/src/main/java/com/osg/restaurantcompanionapp/view/SettingsView.kt:60-64 | follows `Next`: at step 3 with a result, step 0; otherwise nothing |
| EditOrderItem.QuantityIsValid | app/src/main/java/com/osg/restaurantcompanionapp/view/EditOrderItemView.kt:46-51 | `isValid` holds exactly for an optional '+' and digits denoting a positive Int |
| EditOrderItem.QuantityIsError | app/src/main/java/com/osg/restaurantcompanionapp/view/EditOrderItemView.kt:282-283 | the field shows an error exactly for non-empty text that is not a valid quantity |
| EditOrderItem.AcceptsQuantityInput | app/src/main/java/com/osg/restaurantcompanionapp/view/EditOrderItemView.kt:288-292 | the filter takes an edit exactly when every character is an ASCII digit (the empty text included) |
| EditOrderItem.FilteredQuantityError | app/src/main/java/com/osg/restaurantcompanionapp/view/EditOrderItemView.kt:282-292 | behind the filter, the only texts flagged are those denoting 0 and those above the Int range |
| EditOrderItem.InitializedFrom | app/src/main/java/com/osg/restaurantcompanionapp/view/EditOrderItemView.kt:36-44 | after `initializeFrom` the fields equal their originals, so nothing has changed and the button is disabled; the quantity is the decimal rendering of the item's, and valid when that is positive; the form is marked initialised |
| EditOrderItem.HasChanges | app/src/main/java/com/osg/restaurantcompanionapp/view/EditOrderItemView.kt:28-34 | quantity or instructions differ from the values the form was filled with; no contract of its own, backed by EditOrderItem.InitializedFrom (a freshly filled form has no changes) |
| EditOrderItem.UpdateEnabled | app/src/main/java/com/osg/restaurantcompanionapp/view/EditOrderItemView.kt:379-381 | the update button is never enabled while loading, with an empty quantity, or while the quantity field shows an error |
| EditOrderItem.UpdatedItem | app/src/main/java/com/osg/restaurantcompanionapp/view/EditOrderItemView.kt:416-420 | the copy has the new quantity, trimmed instructions and recomputed subtotal, and keeps order id, menu item id, name and price |
| EditOrderItem.OrderItemFormState.constructor | app/src/main/java/com/osg/restaurantcompanionapp/view/EditOrderItemView.kt:65-74 | empty texts, not loading, not initialised |
| EditOrderItem.OrderItemFormState.InitializeFrom | app/src/main/java/com/osg/restaurantcompanionapp/view/EditOrderItemView.kt:36-44 | the form becomes `InitializedFrom` of the old form |
| EditOrderItem.OrderItemFormState.OnOrderItemChanged | app/src/main/java/com/osg/restaurantcompanionapp/view/EditOrderItemView.kt:114-118 | the form is filled only from a non-null item and only if not yet initialised, so later items never overwrite edits |
| EditOrderItem.OrderItemFormState.OnQuantityChange | app/src/main/java/com/osg/restaurantcompanionapp/view/EditOrderItemView.kt:221 | an accepted edit replaces the quantity; a rejected one leaves the form unchanged |
| EditOrderItem.OrderItemFormState.OnSpecialInstructionsChange | app/src/main/java/com/osg/restaurantcompanionapp/view/EditOrderItemView.kt:227 | every edit replaces the instructions |
| EditOrderItem.OrderItemFormState.HandleUpdateOrderItem | app/src/main/java/com/osg/restaurantcompanionapp/view/EditOrderItemView.kt:404-422 | an invalid form sends nothing and changes nothing; a valid one sets loading and sends the updated copy under both ids narrowed with `toInt()` |
| EditOrderItem.OrderItemFormState.OnUpdateResult | app/src/main/java/com/osg/restaurantcompanionapp/view/EditOrderItemView.kt:120-126 | a non-null result stops loading, resets the view model's update cell and navigates back; null does nothing |
| AddMenuItemToOrder.QuantityError | app/src/main/java/com/osg/restaurantcompanionapp/view/AddMenuItemToOrderView.kt:113-118 | blank text gives "Quantity cannot be empty", other unparseable text "Quantity must be a number", the rest of the invalid texts "Quantity must be greater than 0", and no message exactly for a positive Int |
| AddMenuItemToOrder.InitialIsConsistent | app/src/main/java/com/osg/restaurantcompanionapp/view/AddMenuItemToOrderView.kt:26-31 | the initial quantity "1" carries no error, and the button starts disabled because nothing is selected |
| AddMenuItemToOrder.EnabledButtonSubmits | app/src/main/java/com/osg/restaurantcompanionapp/view/AddMenuItemToOrderView.kt:155-173 | while the shown error matches the field, an enabled button always gets past the click's own guard |
| AddMenuItemToOrder.SubmitGuard | app/src/main/java/com/osg/restaurantcompanionapp/view/AddMenuItemToOrderView.kt:155 | the click goes through exactly when an item is selected and the quantity field shows no error |
| AddMenuItemToOrder.ButtonEnabled | app/src/main/java/com/osg/restaurantcompanionapp/view/AddMenuItemToOrderView.kt:170-173 | while the shown error matches the field, the button is enabled exactly when the sheet is idle and its click would go through |
| AddMenuItemToOrder.NewOrderItem | app/src/main/java/com/osg/restaurantcompanionapp/view/AddMenuItemToOrderView.kt:157-165 | the item copies the menu item's id, name and price, the order id, the quantity and the trimmed instructions, with price times quantity as subtotal |
| AddMenuItemToOrder.AddItemSheet.constructor | app/src/main/java/com/osg/restaurantcompanionapp/view/AddMenuItemToOrderView.kt:26-31 | no selection, quantity "1", empty instructions, dropdown closed, not loading, no error |
| AddMenuItemToOrder.AddItemSheet.OnExpandedChange | app/src/main/java/com/osg/restaurantcompanionapp/view/AddMenuItemToOrderView.kt:62 | toggles the dropdown |
| AddMenuItemToOrder.AddItemSheet.OnDismissRequest | app/src/main/java/com/osg/restaurantcompanionapp/view/AddMenuItemToOrderView.kt:80 | closes the dropdown |
| AddMenuItemToOrder.AddItemSheet.SelectMenuItem | app/src/main/java/com/osg/restaurantcompanionapp/view/AddMenuItemToOrderView.kt:97-100 | selects the item and closes the dropdown |
| AddMenuItemToOrder.AddItemSheet.OnQuantityChange | app/src/main/java/com/osg/restaurantcompanionapp/view/AddMenuItemToOrderView.kt:111-118 | every edit is stored, valid or not, with its recomputed error |
| AddMenuItemToOrder.AddItemSheet.OnSpecialInstructionsChange | app/src/main/java/com/osg/restaurantcompanionapp/view/AddMenuItemToOrderView.kt:138 | every edit replaces the instructions |
| AddMenuItemToOrder.AddItemSheet.Submit | app/src/main/java/com/osg/restaurantcompanionapp/view/AddMenuItemToOrderView.kt:151-167 | without a selection and a positive quantity nothing happens; otherwise loading starts and `NewOrderItem` is sent |
| AddMenuItemToOrder.AddItemSheet.OnCreateResult | app/src/main/java/com/osg/restaurantcompanionapp/view/AddMenuItemToOrderView.kt:37-45 | a non-null result restores selection, quantity, instructions and loading to their initial values and reports the item added; null does nothing |
| MenuItemDetail.AcceptsPriceInput | app/src/main/java/com/osg/restaurantcompanionapp/view/MenuItemDetailView.kt:302-306 | the filter takes an edit exactly when it is made of digits and at most one '.' |
| MenuItemDetail.PriceIsError | app/src/main/java/com/osg/restaurantcompanionapp/view/MenuItemDetailView.kt:296-297 | `isError` tests `isNotEmpty` where `isValid` tests `isNotBlank`: an empty field shows no error, a field of only whitespace always shows it (blank text is not a number), and other text shows it exactly when it is not a positive price |
| MenuItemDetail.HasChanges | app/src/main/java/com/osg/restaurantcompanionapp/view/MenuItemDetailView.kt:32-39 | some text differs from the value the form was filled with; no contract of its own, backed by MenuItemDetail.InitializedFrom and MenuItemDetail.UpdateEnabledIff |
| MenuItemDetail.UpdateEnabled | app/src/main/java/com/osg/restaurantcompanionapp/view/MenuItemDetailView.kt:339-341 | the update button is never enabled while the price field shows an error, and only for a positive price; the exact condition is MenuItemDetail.UpdateEnabledIff |
| MenuItemDetail.IsValid | app/src/main/java/com/osg/restaurantcompanionapp/view/MenuItemDetailView.kt:53-60 | a form is valid exactly when name, description and price are not blank and the price field shows no error |
| MenuItemDetail.UpdateEnabledIff | app/src/main/java/com/osg/restaurantcompanionapp/view/MenuItemDetailView.kt:339-341 | the update button is enabled exactly when the form is idle, changed, has non-blank texts and no price error; a price error always blocks the update, and an empty price blocks it without showing an error |
| MenuItemDetail.InitializedFrom | app/src/main/java/com/osg/restaurantcompanionapp/view/MenuItemDetailView.kt:41-51 | after `initializeFrom` the fields equal their originals, so nothing has changed and the button is disabled; the price text is the Double rendering of the price; the form is marked initialised |
| MenuItemDetail.UpdatedMenuItem | app/src/main/java/com/osg/restaurantcompanionapp/view/MenuItemDetailView.kt:374-379 | the item sent carries the route's id, the trimmed name and description, and the parsed price |
| MenuItemDetail.MenuItemFormState.constructor | app/src/main/java/com/osg/restaurantcompanionapp/view/MenuItemDetailView.kt:73-84 | empty texts, not loading, not initialised |
| MenuItemDetail.MenuItemFormState.InitializeFrom | app/src/main/java/com/osg/restaurantcompanionapp/view/MenuItemDetailView.kt:41-51 | the form becomes `InitializedFrom` of the old form |
| MenuItemDetail.MenuItemFormState.OnMenuItemChanged | app/src/main/java/com/osg/restaurantcompanionapp/view/MenuItemDetailView.kt:122-126 | the form is filled only from a non-null item and only if not yet initialised |
| MenuItemDetail.MenuItemFormState.OnNameChange | app/src/main/java/com/osg/restaurantcompanionapp/view/MenuItemDetailView.kt:220 | every edit replaces the name |
| MenuItemDetail.MenuItemFormState.OnDescriptionChange | app/src/main/java/com/osg/restaurantcompanionapp/view/MenuItemDetailView.kt:226 | every edit replaces the description |
| MenuItemDetail.MenuItemFormState.OnPriceChange | app/src/main/java/com/osg/restaurantcompanionapp/view/MenuItemDetailView.kt:302-306 | an accepted edit replaces the price; a rejected one leaves the form unchanged |
| MenuItemDetail.MenuItemFormState.HandleUpdateMenuItem | app/src/main/java/com/osg/restaurantcompanionapp/view/MenuItemDetailView.kt:364-381 | an invalid form sends nothing and changes nothing; a valid one sets loading and sends `UpdatedMenuItem` under the id narrowed with `toInt()` |
| MenuItemDetail.MenuItemFormState.OnUpdateResult | app/src/main/java/com/osg/restaurantcompanionapp/view/MenuItemDetailView.kt:128-134 | a non-null result stops loading, asks for the result reset and navigates back; null does nothing |
| CreateMenuItem.ButtonEnabled | app/src/main/java/com/osg/restaurantcompanionapp/view/CreateMenuItemView.kt:111-116 | the enabled expression is exactly the click's guard plus not loading |
| CreateMenuItem.SubmitGuard | app/src/main/java/com/osg/restaurantcompanionapp/view/CreateMenuItemView.kt:93-98 | the creator goes ahead exactly for the texts the editor's `isValid()` accepts: non-blank name, description and price, and a positive parsed price |
| CreateMenuItem.NewMenuItem | app/src/main/java/com/osg/restaurantcompanionapp/view/CreateMenuItemView.kt:100-105 | the new item has id 0 and takes name and description untrimmed |
| CreateMenuItem.CreatorKeepsBlanksEditorTrims | app/src/main/java/com/osg/restaurantcompanionapp/view/CreateMenuItemView.kt:100-105 | a name starting with whitespace is sent as typed by the creator but differs once the editor trims it |
| CreateMenuItem.CreateMenuItemSheet.constructor | app/src/main/java/com/osg/restaurantcompanionapp/view/CreateMenuItemView.kt:19-22 | empty fields, not loading |
| CreateMenuItem.CreateMenuItemSheet.OnNameChange | app/src/main/java/com/osg/restaurantcompanionapp/view/CreateMenuItemView.kt:52 | every edit replaces the name |
| CreateMenuItem.CreateMenuItemSheet.OnDescriptionChange | app/src/main/java/com/osg/restaurantcompanionapp/view/CreateMenuItemView.kt:65 | every edit replaces the description |
| CreateMenuItem.CreateMenuItemSheet.OnPriceChange | app/src/main/java/com/osg/restaurantcompanionapp/view/CreateMenuItemView.kt:78 | every edit replaces the price; this field has no filter |
| CreateMenuItem.CreateMenuItemSheet.Submit | app/src/main/java/com/osg/restaurantcompanionapp/view/CreateMenuItemView.kt:92-109 | nothing happens unless name, description and price are non-blank and the price parses to > 0; then loading starts and `NewMenuItem` is sent |
| CreateMenuItem.CreateMenuItemSheet.OnCreateResult | app/src/main/java/com/osg/restaurantcompanionapp/view/CreateMenuItemView.kt:25-34 | a non-null result returns the sheet to its initial state, reports the creation and asks for the result reset; null does nothing |
| CreateOrder.NewOrder | app/src/main/java/com/osg/restaurantcompanionapp/view/OrdersView.kt:254-258 | the order has id 0, status PENDING, no time, and the given table number |
| CreateOrder.SubmitOutcomeFor | app/src/main/java/com/osg/restaurantcompanionapp/view/OrdersView.kt:251-261 | blank text is ignored; other text that `toInt()` rejects crashes; the rest sends the order `NewOrder` builds (id 0, PENDING, no time) with the parsed text as its table number |
| CreateOrder.CrashExamples | app/src/main/java/com/osg/restaurantcompanionapp/view/OrdersView.kt:252-256 | "abc" and " 12" pass the blank guard and then crash in `toInt()` |
| CreateOrder.SendsRenderedTableNumber | app/src/main/java/com/osg/restaurantcompanionapp/view/OrdersView.kt:252-258 | the decimal rendering of a table number is sent as exactly that table number |
| CreateOrder.ButtonEnabled | app/src/main/java/com/osg/restaurantcompanionapp/view/OrdersView.kt:263 | enabled exactly when not loading and a click would not be ignored |
| CreateOrder.CreateOrderSheet.constructor | app/src/main/java/com/osg/restaurantcompanionapp/view/OrdersView.kt:209-210 | empty text, not loading |
| CreateOrder.CreateOrderSheet.OnTableNumChange | app/src/main/java/com/osg/restaurantcompanionapp/view/OrdersView.kt:238 | every edit replaces the text |
| CreateOrder.CreateOrderSheet.Submit | app/src/main/java/com/osg/restaurantcompanionapp/view/OrdersView.kt:251-261 | the click's outcome is `SubmitOutcomeFor` the text, and loading is set for all non-blank text, a crash included |
| CreateOrder.CreateOrderSheet.OnCreateResult | app/src/main/java/com/osg/restaurantcompanionapp/view/OrdersView.kt:213-220 | a non-null result clears the text and loading, reports the creation and resets the view model's create result; null does nothing |
| Navigation.AllDestinations | app/src/main/java/com/osg/restaurantcompanionapp/navigation/NavItem.kt:29 | `all` is Orders, MenuItem, Settings in that order, with pairwise distinct routes that have no placeholders |
| Navigation.OrderDetailRoute | app/src/main/java/com/osg/restaurantcompanionapp/navigation/NavItem.kt:15 | `OrderDetail.createRoute`; no contract of its own, backed by Navigation.OrderDetailRouteFillsPattern and Navigation.DetailRoutesSplit |
| Navigation.MenuItemDetailRoute | app/src/main/java/com/osg/restaurantcompanionapp/navigation/NavItem.kt:20 | `MenuItemDetail.createRoute`; no contract of its own, backed by Navigation.MenuItemDetailRouteFillsPattern and Navigation.DetailRoutesSplit |
| Navigation.EditOrderItemRoute | app/src/main/java/com/osg/restaurantcompanionapp/navigation/NavItem.kt:25 | `EditOrderItem.createRoute`; no contract of its own, backed by Navigation.EditOrderItemRouteFillsPattern and Navigation.EditOrderItemRouteSplits |
| Navigation.OrderDetailRouteFillsPattern | app/src/main/java/com/osg/restaurantcompanionapp/navigation/NavItem.kt:13-16 | `createRoute(orderId)` is the route pattern with its placeholder replaced by the decimal id: "orderDetail/" and the id |
| Navigation.MenuItemDetailRouteFillsPattern | app/src/main/java/com/osg/restaurantcompanionapp/navigation/NavItem.kt:18-21 | `createRoute(menuItemId)` is the route pattern with its placeholder replaced by the decimal id: "menuItemDetail/" and the id |
| Navigation.EditOrderItemRouteFillsPattern | app/src/main/java/com/osg/restaurantcompanionapp/navigation/NavItem.kt:23-26 | `createRoute(orderId, menuItemId)` is the route pattern with both placeholders replaced by the decimal ids, order id first |
| Navigation.EditOrderItemRouteSplits | app/src/main/java/com/osg/restaurantcompanionapp/navigation/NavItem.kt:25 | split on '/', the route gives exactly three segments, the name then the order id then the menu item id, and each id reads back |
| Navigation.DetailRoutesSplit | app/src/main/java/com/osg/restaurantcompanionapp/navigation/NavItem.kt:15-20 | split on '/', each one-id route gives its name and an id that reads back |

## Left out

- Network, repositories and the WebSocket client are not modelled: each repository result (a value or null, and for the two calls wrapped in a try also an exception with its message) and each pushed order is a parameter of the step that consumes it.
- OrderViewModel's fetchOrders, fetchActiveOrders, fetchOrderById, updateOrder and deleteOrder, and OrderItemViewModel's fetchOrderItems, fetchOrderItemByIds, fetchOrderItemsByMenuItemId, createOrderItem, updateOrderItem and deleteOrderItem have no try around the repository call, so an exception escapes the coroutine and crashes the app; their models take only a value or null, and this crash path is not modelled. Only createOrder and fetchOrderItemsByOrderId take an exception.
- The field-edit methods (`On*Change`, `SelectMenuItem`) accept edits while `isLoading` holds; the screens disable those fields while loading, so the model allows more edits than the UI does.
- WebSocketViewModel's rule that refetches an order's items only when a pushed item belongs to that order is not modelled.
- Coroutines, `postValue` versus `value`, and races between fetches are not modelled: each coroutine is one sequential step, split in two where its in-flight state (loading set, cells cleared) is observable.
- `LaunchedEffect` re-runs only when its key changes; the model calls the effect's handler with the observed value and does not track keys. The screens' initial fetch effects (fetching the menu, the item by ids, the menu item by id) are left out.
- `Double` is an exact `real`; `toDoubleOrNull` and `Double.toString` are an oracle (`Model.DoubleText`) of which the model assumes only that blank text does not parse, so rounding, formatting and the exact text of a rendered price are not modelled. Subtotals are exact products.
- `toIntOrNull`/`toLongOrNull` accept only ASCII digits here; the JVM also accepts other Unicode decimal digits. Characters are Unicode scalar values rather than UTF-16 code units.
- MenuItemViewModel is not modelled. The menu-item editor and creator return flags where they call its reset functions, and `resetUpdateMenuItemResult`, which the editor calls, does not exist in MenuItemViewModel.kt.
- The bulk deletes (`deleteAllOrderItems`, `deleteAllOrders`, `deleteAllMenuItems`) and their result cells are not defined in the view models shown; the settings model records the requests in a log and takes the results as events.
- Order.kt has no table number, while the create-order sheet builds orders with one and without a time; the model's order has a table number and an optional time.
- The add-item sheet stores its Long order id, and the menu-item editor its Long menu item id, into Int fields; the model copies the value without narrowing.
- Settings.SettingsView.OnConfirm and OnDismiss require the dialog to be shown, since the dialog's callbacks exist only then.
- The add-item sheet's dropdown contents (the fetched menu and the formatted prices) are not modelled; any menu item can be selected.
- Icons, colours, layout and the other screens (order list rendering, order detail, menu list, main activity) are not modelled.
