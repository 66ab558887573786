# FoodKiosk in Dafny

This project models the ordering logic of the FoodKiosk self-service kiosk, and proves
properties of that model. FoodKiosk is a React web app plus two React Native apps.

- **Kiosk session** (`kiosk.dfy`, module `Kiosk`). Both single-file apps (`src/App.tsx`
  for the web, `App.tsx` for React Native) keep the same state: a screen name
  (welcome, menu, items, cart), the selected category and a cart of lines. Each
  "Add to Cart" tap appends a new line with quantity 1. The class `Session` holds this
  state. Its methods are the buttons of the two apps, plus the web app's two-minute
  inactivity timer. `InactivityTimeout` models what the timer's callback does when it
  fires, as intended; it does not model whether the web app's effect, which re-arms
  and clears its own timer, ever lets that callback run. `Session.Valid` is kept by
  every method: the screen name is a known one, the item screen always has a
  category, and every line has quantity 1.
  `RenderScreen` is the `switch` that picks the drawn screen.
- **Catalogs and sessions** (`web_kiosk.dfy`, `native_kiosk.dfy`). The two catalogs,
  and complete ordering sessions proved against the `Session` contracts.
- **Cart screen** (`cart_screen.dfy`, module `CartPricing`). The order summary: the
  subtotal, 8% tax, a 2.99 delivery fee waived strictly above 25, and the
  free-delivery banner. Also the cart edits: remove by id, set a quantity by id,
  clear, and the "−"/"+" buttons. The confirmation dialogs become a `confirmed`
  parameter.
- **Menu screen** (`menu_screen.dfy`, module `Menu`). The catalog filter: category
  chip plus case-insensitive substring search on the name or description. Also
  the one-second per-item guard against repeated taps on "add". The clock
  (`Date.now()`) becomes a parameter.
- **Order history screen** (`order_history.dfy`, module `OrderHistory`). The status
  filter and its chip counts, the status colour/icon/text mappings, the single
  expanded order card, and the small display rules of an order card.
- `seqs.dfy` (modules `Wrappers`, `Seqs`). `Option`, and `Filter`/`Sum`: the
  `Array.filter` and `reduce` the screens use, with their lemmas.

Money is exact `real` arithmetic. Strings are `seq<char>`.

Where the code's behaviour may surprise a reader, the model follows the code:

- `updateQuantity` writes any non-zero quantity, negative ones included, into the
  lines with the id.
- "Back to Menu" and "Place Order" keep the selected category, so "Continue Shopping"
  after an order goes straight back to that category's items.
- At a subtotal of exactly 25 the delivery fee is charged, but the free-delivery
  banner is not shown (`CartPricing.ThresholdGap`).
- A recorded tap time of 0 is falsy, so it does not block the next tap
  (`Menu.ZeroTimeNotGuarded`).
- An empty estimated time is falsy and is not shown.

## Model

| member | source | states |
|---|---|---|
| Kiosk.ScreenName | src/App.tsx:287-300 | each drawable view is stored under one of the four screen names |
| Kiosk.RenderScreen | src/App.tsx:287-300 | a known screen name draws the view stored under that name; any other name draws the welcome screen |
| Kiosk.RenderScreenName | App.tsx:196-209 | storing a view's name and rendering it gives back the same view |
| Kiosk.NewLine | src/App.tsx:125-128 | the added line copies the item's id, name, price and image, with quantity 1 |
| Kiosk.AddAllEffect | src/App.tsx:125-132 | a run of taps keeps the earlier lines, appends one line per tap in tap order, and raises the total by the sum of the tapped prices |
| Kiosk.UnitLinesTotal | src/App.tsx:130-132 | when every line has quantity 1, the total is the sum of the line prices |
| Kiosk.Session.constructor | src/App.tsx:95-97 | starts on the welcome screen, with no category and an empty cart; the invariant holds |
| Kiosk.Session.Start | src/App.tsx:159 | "Start Ordering" goes to the category screen and changes nothing else |
| Kiosk.Session.ViewCart | src/App.tsx:171 | the cart button goes to the cart screen and changes nothing else |
| Kiosk.Session.BackToWelcome | src/App.tsx:198 | goes to the welcome screen and keeps the category and the cart |
| Kiosk.Session.SelectCategory | src/App.tsx:182-186 | selects the tapped category and shows its items; the cart is unchanged |
| Kiosk.Session.BackToMenu | src/App.tsx:234 | goes to the category screen and keeps the selected category |
| Kiosk.Session.AddToCart | src/App.tsx:125-128 | appends exactly one new line for the item, even when a line for it exists, and raises the total by the item's price |
| Kiosk.Session.ContinueShopping | src/App.tsx:281 | goes to the item screen when a category is selected, otherwise to the category screen |
| Kiosk.Session.PlaceOrder | src/App.tsx:266-274 | placed iff the cart is non-empty; a placed order empties the cart and returns to welcome; a refused one changes nothing; the category is kept either way |
| Kiosk.Session.InactivityTimeout | src/App.tsx:106-112 | off the welcome screen, resets to welcome with an empty cart and no category; on the welcome screen, changes nothing |
| WebKiosk.MainsScenario | src/App.tsx:14-63 | adding the 12.90 burger twice gives two lines totalling 25.80; placing the order empties the cart and keeps Mains selected; the timer on welcome changes nothing |
| WebKiosk.TimeoutScenario | src/App.tsx:101-123 | an order on an empty cart is refused and the cart screen stays; the timer then discards the cart and the category |
| NativeKiosk.BurgerScenario | App.tsx:17-71 | a Classic and a Cheese Burger give two lines totalling 18.98; placing the order empties the cart, returns to welcome and keeps Burgers selected |
| NativeKiosk.BackScenario | App.tsx:188-190 | with no category, "Continue Shopping" leads to the category screen, and its back button to welcome |
| CartPricing.DeliveryFee | FoodKiosk/src/screens/CartScreen.tsx:59 | the fee is either 0 or 2.99, and it is 0 exactly when the subtotal exceeds 25 |
| CartPricing.TotalBreakdown | FoodKiosk/src/screens/CartScreen.tsx:57-60 | the total is 1.08 × subtotal above 25, and 1.08 × subtotal + 2.99 otherwise |
| CartPricing.SubtotalNonNegative | FoodKiosk/src/screens/CartScreen.tsx:57-60 | with non-negative prices and quantities, the subtotal is non-negative and the total is at least the subtotal |
| CartPricing.PromoShortfall | FoodKiosk/src/screens/CartScreen.tsx:250-257 | the banner appears only while the fee is charged, and asks for a positive amount that brings the subtotal exactly to 25 |
| CartPricing.ThresholdGap | FoodKiosk/src/screens/CartScreen.tsx:250-254 | at exactly 25 the fee (line 59) is charged with no banner; adding the banner's amount does not yet waive the fee |
| CartPricing.MockCartSummary | FoodKiosk/src/screens/CartScreen.tsx:27-60 | the starting cart has subtotal 27.95, free delivery, no banner, tax 2.236 and total 30.186 |
| CartPricing.RemoveByIdSpec | FoodKiosk/src/screens/CartScreen.tsx:85 | removal leaves no line with the id and keeps every other line with all its copies, in the original order; kept plus removed lines make up the whole cart |
| CartPricing.RemoveAbsentId | FoodKiosk/src/screens/CartScreen.tsx:85 | removing an id that no line has leaves the cart unchanged |
| CartPricing.RemovalSubtotal | FoodKiosk/src/screens/CartScreen.tsx:85 | removal lowers the subtotal by exactly the subtotal of the removed lines |
| CartPricing.SetQuantityAt | FoodKiosk/src/screens/CartScreen.tsx:68-72 | every line with the id gets the new quantity; all other lines and fields, and the order, are unchanged |
| CartPricing.UpdateSubtotal | FoodKiosk/src/screens/CartScreen.tsx:68-72 | after an update, the subtotal is the other lines' subtotal plus the new quantity times the unit prices of the lines with the id |
| CartPricing.EditsKeepPositive | FoodKiosk/src/screens/CartScreen.tsx:62-90 | removal, and setting a positive quantity, keep every quantity at least 1 |
| CartPricing.DecrementTarget | FoodKiosk/src/screens/CartScreen.tsx:190 | the "−" button asks for one less, never below 0 |
| CartPricing.IncrementTarget | FoodKiosk/src/screens/CartScreen.tsx:199 | the "+" button asks for a larger quantity |
| CartPricing.Cart.constructor | FoodKiosk/src/screens/CartScreen.tsx:54 | the cart starts with the three mock lines |
| CartPricing.Cart.RemoveItem | FoodKiosk/src/screens/CartScreen.tsx:75-90 | a confirmed removal drops the lines with the id; a cancelled one changes nothing |
| CartPricing.Cart.UpdateQuantity | FoodKiosk/src/screens/CartScreen.tsx:62-73 | quantity 0 becomes a confirmed removal; any other quantity is written into the lines with the id |
| CartPricing.Cart.ClearCart | FoodKiosk/src/screens/CartScreen.tsx:92-105 | a confirmed clear empties the cart; a cancelled one changes nothing |
| CartPricing.Cart.Decrement | FoodKiosk/src/screens/CartScreen.tsx:188-190 | above 1, lowers the line's quantity by one; at 1 or less, asks to remove the line; if every quantity was at least 1, that stays true |
| CartPricing.Cart.Increment | FoodKiosk/src/screens/CartScreen.tsx:197-199 | raises the line's quantity by one, except that −1 becomes a removal request; if every quantity was at least 1, that stays true |
| Menu.Lower | FoodKiosk/src/screens/MenuScreen.tsx:137-138 | lower-casing keeps the length |
| Menu.LowerIdempotent | FoodKiosk/src/screens/MenuScreen.tsx:137-138 | a lower-cased string has no upper-case letters, and lower-casing it again changes nothing |
| Menu.IncludesIff | FoodKiosk/src/screens/MenuScreen.tsx:137-138 | `includes` holds exactly when the text occurs at some position |
| Menu.FilteredItemsSpec | FoodKiosk/src/screens/MenuScreen.tsx:134-140 | the list holds exactly the well-formed items in the category whose name or description contains the query, each as often as in the catalog, in catalog order |
| Menu.EmptyQueryMatches | FoodKiosk/src/screens/MenuScreen.tsx:137-138 | the empty search text matches every item |
| Menu.SearchIgnoresCase | FoodKiosk/src/screens/MenuScreen.tsx:137-138 | two queries that lower-case alike match the same items |
| Menu.DefaultListsEverything | FoodKiosk/src/screens/MenuScreen.tsx:134-140 | the "all" chip with no search text lists all six catalog items in order |
| Menu.EveryItemHasChip | FoodKiosk/src/screens/MenuScreen.tsx:33-94 | every catalog item's category is the id of one of the chips after "all" |
| Menu.DessertsChip | FoodKiosk/src/screens/MenuScreen.tsx:134-140 | the fifth chip, "desserts", lists the apple pie, then the McFlurry |
| Menu.ProcessTapsInvariant | FoodKiosk/src/screens/MenuScreen.tsx:146-149 | over any run of taps at positive times: recorded times stay positive, each accepted tap is at or before its item's record, and accepted taps on one item are at least a second apart |
| Menu.AcceptedTapsSpaced | FoodKiosk/src/screens/MenuScreen.tsx:142-149 | starting from no record, accepted taps on the same item are at least 1000 ms apart |
| Menu.ZeroTimeNotGuarded | FoodKiosk/src/screens/MenuScreen.tsx:146 | two taps on one item at time 0 are both accepted, because the stored 0 is falsy |
| Menu.MenuScreen.constructor | FoodKiosk/src/screens/MenuScreen.tsx:97-103 | starts with the "all" chip, empty search text and no recorded taps, so the whole catalog is listed |
| Menu.MenuScreen.SelectCategory | FoodKiosk/src/screens/MenuScreen.tsx:290 | a chip tap selects that chip, changes nothing else, and the list becomes that chip's filter under the current search |
| Menu.MenuScreen.SetSearchQuery | FoodKiosk/src/screens/MenuScreen.tsx:273 | typing replaces the search text, changes nothing else, and the list becomes the current chip's filter under the new text |
| Menu.MenuScreen.AddToCart | FoodKiosk/src/screens/MenuScreen.tsx:142-149 | a tap is accepted iff not within a second of the item's last guarded tap; an ignored tap records nothing; an accepted one records its time for that item only |
| OrderHistory.FilteredOrdersSpec | FoodKiosk/src/screens/OrderHistoryScreen.tsx:100-102 | "all" lists every order; any other filter lists exactly the orders with that status, each as often as in the history, in order |
| OrderHistory.ChipCountsMatchLists | FoodKiosk/src/screens/OrderHistoryScreen.tsx:93-102 | each chip's count is the length of the list that chip shows |
| OrderHistory.ChipCountsPartition | FoodKiosk/src/screens/OrderHistoryScreen.tsx:93-98 | with known statuses only, the "all" count is the sum of the three status counts plus the cancelled orders, which have no chip |
| OrderHistory.StatusMappings | FoodKiosk/src/screens/OrderHistoryScreen.tsx:104-147 | an unknown status gets the defaults `#666`, `help` and its own text; the four known statuses get pairwise distinct colours, icons and texts, none of them a default |
| OrderHistory.Toggle | FoodKiosk/src/screens/OrderHistoryScreen.tsx:149-151 | tapping the expanded order collapses it; tapping any other order expands that order alone |
| OrderHistory.ToggleTwice | FoodKiosk/src/screens/OrderHistoryScreen.tsx:149-151 | two taps on one order restore the state exactly when nothing, or that same order, was expanded |
| OrderHistory.AtMostOneExpanded | FoodKiosk/src/screens/OrderHistoryScreen.tsx:250 | with distinct order ids, at most one card shows its details |
| OrderHistory.ItemsWord | FoodKiosk/src/screens/OrderHistoryScreen.tsx:228 | the label is "items" iff the order has more than one line, otherwise "item" |
| OrderHistory.MockOrdersDisplay | FoodKiosk/src/screens/OrderHistoryScreen.tsx:238-240 | the two open mock orders show an estimated time and the completed ones do not; every card says "items"; the chip counts are 4, 1, 1, 2 |
| OrderHistory.OrderHistoryScreen.constructor | FoodKiosk/src/screens/OrderHistoryScreen.tsx:90-91 | starts with the "all" filter, listing every order, and no expanded order |
| OrderHistory.OrderHistoryScreen.SelectFilter | FoodKiosk/src/screens/OrderHistoryScreen.tsx:186 | a chip tap selects that filter, lists that filter's orders, and keeps the expanded order |
| OrderHistory.OrderHistoryScreen.ToggleOrderDetails | FoodKiosk/src/screens/OrderHistoryScreen.tsx:149-151 | the expanded order becomes `Toggle` of the previous one; the filter and the listed orders are kept |

## Left out

- Prices reach the screen through `toFixed(2)` over IEEE-754 doubles. The model uses exact
  reals: formatting and floating-point rounding are not modelled.
- Sounds, vibration, animations (button scale, flying items, success indicators, cart
  bounce), styles, icons and images are presentation only.
- `Alert.alert` dialogs are replaced by the `confirmed` parameter. The checkout dialog and
  "Reorder" only show an alert or log to the console, so they have no state to model.
- Timer handling in the web app is left out: `setTimeout`, `clearTimeout`, the `useEffect`
  re-arming, and the stale `timeoutId` cleanup. So is the container `onClick` that clears
  the timer without re-arming it. Because the effect depends on the `timeoutId` it sets
  itself, each arming re-runs it and clears the previous timer, so the 120 s callback
  may never fire. `Kiosk.Session.InactivityTimeout` models the callback as intended,
  not whether the source ever reaches it.
- `Menu.MatchesSearch` lower-cases ASCII letters only. JavaScript's `toLowerCase` also
  folds other Unicode letters.
- `Menu.MenuScreen.AddToCart` models only the tap guard. The rest of `addToCart`
  animates, logs, and leaves adding to a cart as a TODO, so it changes no modelled
  state. The `try`/`catch` error alert is left out, since nothing modelled can throw.
- `Date.now()` becomes the `now` parameter. `Menu.AcceptedTapsSpaced` assumes clock
  readings are positive, which every real clock reading after 1970 is.
- The empty-cart and empty-history placeholders and the `count > 0` badge condition
  are display only.
- The per-line amounts in the expanded order details, and the payment and date lines,
  are display only.
- FoodKiosk/App.tsx (navigation shell and cart-animation context) and
  FoodKiosk/src/components/LogoButton.tsx are not part of this model.
- CartPricing.IncrementTarget: states only that the target exceeds the old quantity.
  `Cart.Increment` states the exact new state.
