# Fashionista storefront — a Dafny model of its core

This project models the client-side logic of a React Native fashion
storefront. The app keeps three persisted stores: the cart, the signed-in
user and the shop filters. On top of them sit screens that filter, sort and
lay out a product catalog, build the checkout's price breakdown and order
summary, validate the signup form, and guard the root navigation stack.

The model follows the form of each source file:

- The three zustand stores (`cartStore.ts`, `authStore.ts`, `shopStore.ts`)
  are classes. Their state fields are updated by methods. Each state-changing
  method is specified by pure functions (`Added`, `Removed`, `WithQuantity`,
  `Rehydrated`, …) or by a `State()` snapshot of the old state. The
  properties of the stores (folds, unique cart lines, persistence round
  trips) are lemmas about those functions.
- The screens' component state is also modelled as classes: the cart
  quantity modal, the onboarding slide index, the signup form and the
  notification switches.
- Handlers that only compute a value or an effect are functions. Navigation,
  alerts and callback calls are returned as effect values.
- The catalog is a parameter. The shop screen sorts the shared catalog
  array in place, so the catalog is an `array<Product>` there. The methods
  that reorder it say so in their `modifies` clauses. `RenderShopScreen`
  shows the consequence: the unsorted tabs also come out sorted by rating.
- Sorting is an in-place insertion sort proved sorted and a permutation.
- Loops in the source (`groupedItems`, the columns of `renderPage`) are
  methods with loop invariants.

Conventions:

- Money and ratings are exact `real` numbers.
- Text is a sequence of ASCII characters. Whitespace means the ASCII members
  of JavaScript's `\s`: space, tab, line feed, carriage return, vertical tab
  and form feed.
- `Math.round`, `Math.floor`, `x % 1` and `String(n)` are written out
  explicitly.

## Model

| member | source | states |
|---|---|---|
| Sequences.Filter | src/App/Pages/Cart/CartScreen.tsx:40-41 | `filter` keeps exactly the elements that pass, in their original order (a subsequence) |
| Sequences.Take | src/App/Pages/Cart/CartScreen.tsx:42 | `slice(0, n)` is the prefix of length min(n, length) |
| Sequences.TakeFilterPrefix | src/App/Pages/Cart/CartScreen.tsx:40-42 | `filter(f).slice(0, n)` is the filter of a prefix that is the whole list or already yields n elements |
| Sequences.Reverse | src/App/Pages/Home/ShopScreen.tsx:80 | `slice().reverse()` puts element i at position length-1-i and is a permutation |
| Text.Lower | src/App/Pages/Shop/CategoryDetailsScreen.tsx:50 | `toLowerCase` maps every character and keeps the length |
| Text.Upper | src/App/Pages/Profile/ProfileScreen.tsx:95 | `toUpperCase` maps every character and keeps the length |
| Text.Split | src/App/Pages/Profile/ProfileScreen.tsx:93 | `split(' ')` gives at least one part, and no part holds the separator |
| Text.SplitFirst | src/stores/authStore.ts:52 | the first part of a split is the text before the first separator |
| Text.SplitJoin | src/App/Pages/Profile/ProfileScreen.tsx:93 | joining the parts with the separator gives back the string |
| Text.RemoveSpaces | src/utils/validation.ts:19 | `replace(/\s+/g, '')` keeps exactly the non-whitespace characters |
| Text.TrimStart | src/utils/validation.ts:23 | removes a leading run of whitespace only, and the result does not start with whitespace |
| Text.TrimEnd | src/utils/validation.ts:23 | removes a trailing run of whitespace only, and the result does not end with whitespace |
| Text.Trim | src/utils/validation.ts:23 | `trim` never lengthens the text, and a non-empty result neither starts nor ends with whitespace |
| Text.IncludesIgnoringCase | src/App/Pages/Shop/CategoryDetailsScreen.tsx:50-57 | `toLowerCase().includes(…toLowerCase())`; what it keeps is stated by `SubCategoryFilter` and `SearchFilter` |
| Cart.FindLine | src/stores/cartStore.ts:30-35 | `findIndex` returns the first line with the same product id, size and colour, or -1 when there is none |
| Cart.Added | src/stores/cartStore.ts:28-46 | after adding, the key has a line; the cart grows by one line exactly when the key was new |
| Cart.Removed | src/stores/cartStore.ts:48-51 | keeps exactly the lines of other products, in order |
| Cart.LinesOf | src/stores/cartStore.ts:48-51 | exactly the lines `removeFromCart` drops |
| Cart.SetQuantity | src/stores/cartStore.ts:61-65 | every line of the product gets the quantity; other lines and the order are unchanged |
| Cart.WithQuantity | src/stores/cartStore.ts:53-66 | a quantity of 0 or less keeps exactly the other products' lines; otherwise the same lines and products, with the product's quantities set |
| Cart.FoldsConcat | src/stores/cartStore.ts:72-80 | total and item count add up over concatenated carts |
| Cart.FoldsUpdate | src/stores/cartStore.ts:72-80 | replacing one line changes the total and the count by that line's difference |
| Cart.EmptyCartFolds | src/stores/cartStore.ts:68-80 | an empty cart totals 0 and counts 0 items |
| Cart.Total | src/stores/cartStore.ts:72-75 | the `reduce` of price times quantity; its laws are `FoldsConcat`, `FoldsUpdate` and `FoldsNonNegative` |
| Cart.ItemsCount | src/stores/cartStore.ts:77-80 | the `reduce` of quantities; its laws are `FoldsConcat`, `FoldsUpdate` and `FoldsNonNegative` |
| Cart.FoldsNonNegative | src/stores/cartStore.ts:72-80 | lines without negative prices or quantities give a non-negative total and count |
| Cart.AddNewLine | src/stores/cartStore.ts:41-45 | a new key is appended as one line at the end |
| Cart.AddExistingLine | src/stores/cartStore.ts:37-40 | an existing key keeps the length and raises only that line's quantity |
| Cart.AddKeepsUniqueLines | src/stores/cartStore.ts:28-46 | adding never creates a second line for a (product id, size, colour) key |
| Cart.AddFolds | src/stores/cartStore.ts:28-46 | the item count grows by exactly the quantity; the total grows by the absorbing line's price times the quantity |
| Cart.BumpFolds | src/stores/cartStore.ts:37-40 | raising one line's quantity raises the count by that amount and the total by its price times it |
| Cart.LineTotalBump | src/stores/cartStore.ts:39 | raising a line's quantity raises its line total by the unit price times the amount |
| Cart.AppendFolds | src/stores/cartStore.ts:42-44 | appending a line adds its quantity to the count and its price times quantity to the total |
| Cart.AbsorbingPriceIsCurrent | src/stores/cartStore.ts:37-43 | when all lines of the product carry its current price, so does the line that absorbs the quantity |
| Cart.AddTotal | src/stores/cartStore.ts:28-46 | when the product's lines carry its current price, the total grows by price times quantity |
| Cart.RemovePartitionsFolds | src/stores/cartStore.ts:48-51 | the removed lines and the kept lines split the total and the item count |
| Cart.SetQuantityCount | src/stores/cartStore.ts:61-65 | after setting the quantity, the count is the other lines' count plus quantity times the product's line count |
| Cart.UpdateKeepsUniqueLines | src/stores/cartStore.ts:48-66 | removing and updating keep cart keys distinct |
| Cart.CartStore.constructor | src/stores/cartStore.ts:26 | the cart starts empty |
| Cart.CartStore.AddToCart | src/stores/cartStore.ts:28-46 | the cart becomes `Added(old cart, …)`; unique keys are kept; the count grows by the quantity |
| Cart.CartStore.RemoveFromCart | src/stores/cartStore.ts:48-51 | the cart becomes `Removed(old cart, id)` |
| Cart.CartStore.UpdateQuantity | src/stores/cartStore.ts:53-66 | a quantity of 0 or less removes the product; otherwise every line of it gets the quantity; unique keys are kept |
| Cart.CartStore.ClearCart | src/stores/cartStore.ts:68-70 | the cart is empty, with total 0 and count 0 |
| Cart.CartStore.GetCartTotal | src/stores/cartStore.ts:72-75 | the `Total` of the current cart |
| Cart.CartStore.GetCartItemsCount | src/stores/cartStore.ts:77-80 | the `ItemsCount` of the current cart |
| AuthStore.DemoPassword | src/stores/authStore.ts:38-42 | the demo credential table; its content is stated by `AcceptedPairs` |
| AuthStore.CredentialsAccepted | src/stores/authStore.ts:44 | the table lookup equals the password; `AcceptedPairs` states exactly which pairs pass |
| AuthStore.AcceptedPairs | src/stores/authStore.ts:37-47 | a login is accepted exactly for the three demo address/password pairs |
| AuthStore.LoginName | src/stores/authStore.ts:52 | the user name is the text of the address before its first `@` |
| AuthStore.LoginUser | src/stores/authStore.ts:49-54 | a signed-in user has id "1", the given address and the name before the `@` |
| AuthStore.Partialize | src/stores/authStore.ts:102-106 | only the user is persisted |
| AuthStore.Rehydrated | src/stores/authStore.ts:107-117 | after a successful read, loading is off, onboarding is unseen and the stored user (if any) wins; a failed read changes nothing |
| AuthStore.RelaunchRestoresUser | src/stores/authStore.ts:102-117 | a relaunch restores the saved user, ends loading and shows onboarding again |
| AuthStore.AuthStore.constructor | src/stores/authStore.ts:27-29 | no user, loading, onboarding not seen |
| AuthStore.AuthStore.Login | src/stores/authStore.ts:31-58 | a demo pair signs in `LoginUser(email)` and ends loading; anything else only ends loading and reports invalid credentials |
| AuthStore.AuthStore.Signup | src/stores/authStore.ts:60-75 | signs in a user with the given id, name and address and ends loading; nothing else changes |
| AuthStore.AuthStore.Logout | src/stores/authStore.ts:77-80 | only the user is cleared |
| AuthStore.AuthStore.CompleteOnboarding | src/stores/authStore.ts:82-86 | only the onboarding flag is set |
| AuthStore.AuthStore.Rehydrate | src/stores/authStore.ts:107-117 | the state becomes `Rehydrated(old state, stored, readFailed)` |
| ShopStore.TabName | src/stores/shopStore.ts:15-16 | the tab's string; `TabNameRoundTrip` shows each tab has its own |
| ShopStore.TabOfName | src/stores/shopStore.ts:15-16 | the tab a string names, if any; `TabOfNameRoundTrip` shows it inverts `TabName` |
| ShopStore.TabNameRoundTrip | src/stores/shopStore.ts:15-16 | reading a tab's name back gives the tab |
| ShopStore.TabOfNameRoundTrip | src/stores/shopStore.ts:15-16 | a string read as a tab is that tab's name |
| ShopStore.Partialize | src/stores/shopStore.ts:61-65 | only the category and the tab are persisted |
| ShopStore.Rehydrated | src/stores/shopStore.ts:58-66 | rehydration restores the persisted fields and leaves the query and carousel index alone |
| ShopStore.PersistRoundTrip | src/stores/shopStore.ts:26-65 | a fresh launch restores the saved category and tab, with an empty query and index 0 |
| ShopStore.RehydrateThenPersist | src/stores/shopStore.ts:58-66 | persisting right after rehydration writes the same snapshot; rehydrating twice changes nothing more |
| ShopStore.ShopStore.constructor | src/stores/shopStore.ts:26-36 | starts in the initial state |
| ShopStore.ShopStore.SetSearchQuery | src/stores/shopStore.ts:38-40 | only the query changes |
| ShopStore.ShopStore.SetSelectedCategory | src/stores/shopStore.ts:42-44 | only the category changes |
| ShopStore.ShopStore.SetSelectedTab | src/stores/shopStore.ts:46-48 | only the tab changes |
| ShopStore.ShopStore.SetOfferIndex | src/stores/shopStore.ts:50-52 | only the carousel index changes |
| ShopStore.ShopStore.ResetShopState | src/stores/shopStore.ts:54-56 | back to the initial state, whatever the state before |
| ShopStore.ShopStore.Rehydrate | src/stores/shopStore.ts:58-66 | the state becomes `Rehydrated(old state, snapshot)` |
| Validation.IndexOf | src/utils/validation.ts:6 | the first position of a character, or none when it is absent |
| Validation.ValidateEmail | src/utils/validation.ts:6-10 | the email regex test; `EmailMatchesPattern` states what it accepts |
| Validation.EmailMatchesPattern | src/utils/validation.ts:6-10 | the email check accepts exactly `atom@atom.atom`, where an atom is a non-empty run without whitespace or `@` |
| Validation.EmailToShape | src/utils/validation.ts:6-10 | every accepted address splits as `atom@atom.atom` |
| Validation.ShapeToEmail | src/utils/validation.ts:6-10 | every `atom@atom.atom` is accepted |
| Validation.EmailHasOneAt | src/utils/validation.ts:6-10 | an accepted address holds exactly one `@` |
| Validation.ValidatePassword | src/utils/validation.ts:12-14 | length at least the minimum (6 by default); `PasswordMonotone` states it is upward closed |
| Validation.PasswordMonotone | src/utils/validation.ts:12-14 | lengthening a valid password keeps it valid |
| Validation.ValidatePhoneNumber | src/utils/validation.ts:16-20 | 10 to 15 digits once whitespace is removed; see `PhoneIgnoresSpaces` and `PhoneCharacters` |
| Validation.PhoneIgnoresSpaces | src/utils/validation.ts:16-20 | inserting whitespace anywhere never changes the phone verdict |
| Validation.PhoneCharacters | src/utils/validation.ts:16-20 | an accepted phone number holds only digits and whitespace |
| Validation.ValidateRequired | src/utils/validation.ts:22-24 | the trimmed value is non-empty; `RequiredMeansNonSpace` states it |
| Validation.RequiredMeansNonSpace | src/utils/validation.ts:22-24 | a value is present exactly when it holds a non-whitespace character |
| Validation.ValidatePasswordsMatch | src/utils/validation.ts:26-28 | strict equality; `PasswordsMatchIsEquivalence` states its laws |
| Validation.PasswordsMatchIsEquivalence | src/utils/validation.ts:26-28 | the password match is reflexive, symmetric and transitive |
| Signup.FirstFailure | src/App/Pages/Auth/SignupScreen.tsx:46-65 | the first failing check of the form; `GuardOrder` states the order |
| Signup.GuardOrder | src/App/Pages/Auth/SignupScreen.tsx:46-65 | each error is reported exactly when its check fails and every earlier check passed; none when all pass |
| Signup.PhoneNeverValidated | src/App/Pages/Auth/SignupScreen.tsx:46-65 | the phone number must be non-empty but its content never changes the outcome |
| Signup.PassingForm | src/App/Pages/Auth/SignupScreen.tsx:46-65 | a passing form has an address with one `@` and a confirmation equal to a password of 6 or more characters |
| Signup.SignupScreen.constructor | src/App/Pages/Auth/SignupScreen.tsx:31-39 | the form opens prefilled, on the register tab, not loading |
| Signup.SignupScreen.HandleSignup | src/App/Pages/Auth/SignupScreen.tsx:46-75 | the first failing check is alerted and the store is untouched; otherwise the user is signed up and loading ends off |
| Signup.SignupScreen.HandleTabChange | src/App/Pages/Auth/SignupScreen.tsx:77-83 | "login" goes back and keeps the tab; any other key becomes the active tab |
| ProductCard.DefaultSize | src/App/Components/Product/ProductCard.tsx:49 | the first size when it is non-empty, "M" otherwise |
| ProductCard.DefaultColor | src/App/Components/Product/ProductCard.tsx:50 | the first colour when it is non-empty, "Default" otherwise |
| ProductCard.HandleAddToCart | src/App/Components/Product/ProductCard.tsx:42-54 | a supplied callback replaces the default; otherwise one unit in the default size and colour is added and confirmed |
| ProductCard.HandlePress | src/App/Components/Product/ProductCard.tsx:38-40 | opens the details of this product |
| ProductCard.SoldFigure | src/App/Components/Product/ProductCard.tsx:56-86 | compact cards show the review count; default cards show its floor tenth |
| Checkout.DeliveryFee | src/App/Pages/Cart/CheckoutScreen.tsx:53 | delivery is free exactly above 150, otherwise 12.5 |
| Checkout.Taxes | src/App/Pages/Cart/CheckoutScreen.tsx:54 | taxes lie between 0 and the subtotal for a non-negative subtotal |
| Checkout.OrderDiscount | src/App/Pages/Cart/CheckoutScreen.tsx:55 | a 5% discount only above 200, never larger than the taxes |
| Checkout.GrandTotal | src/App/Pages/Cart/CheckoutScreen.tsx:56 | subtotal plus delivery plus taxes minus discount; `GrandTotalBands` gives it per band |
| Checkout.GrandTotalBands | src/App/Pages/Cart/CheckoutScreen.tsx:51-56 | the grand total in closed form per price band, never below a non-negative subtotal |
| Checkout.GrandTotalDropsAtFreeDelivery | src/App/Pages/Cart/CheckoutScreen.tsx:53-56 | a larger cart can cost less: 150 gives 174.5 and 151 gives 163.08 |
| Checkout.Round | src/App/Pages/Cart/CheckoutScreen.tsx:129-131 | `Math.round` lies within one half of its argument |
| Checkout.CalculateDiscount | src/App/Pages/Cart/CheckoutScreen.tsx:127-135 | no original price gives 0; a genuine markdown gives a percentage between 0 and 100 |
| Checkout.DiscountRatioBounds | src/App/Pages/Cart/CheckoutScreen.tsx:127-135 | a markdown to a price between 0 and the original is 0% to 100% of the original |
| Checkout.HandleQuantitySelect | src/App/Pages/Cart/CheckoutScreen.tsx:107-110 | updates the product's quantity and closes the sheet; for the offered chips 1 to 10 no line is removed |
| Checkout.PaymentLabel | src/App/Pages/Cart/CheckoutScreen.tsx:147-152 | the summary's label of a method; `PaymentLabelRoundTrip` shows the labels are distinct |
| Checkout.PaymentLabelRoundTrip | src/App/Pages/Cart/CheckoutScreen.tsx:147-152 | each payment method has its own label |
| Checkout.OrderId | src/App/Pages/Cart/CheckoutScreen.tsx:144 | "QTL-" followed by the last six characters of the timestamp, or all of it when shorter |
| Checkout.HandleOrderAndPay | src/App/Pages/Cart/CheckoutScreen.tsx:137-159 | without a method only an alert; with one the summary uses the pre-clear total and count, the cart is emptied and the app navigates to `OrderSuccess` |
| CartScreen.CartProductIds | src/App/Pages/Cart/CartScreen.tsx:39 | exactly the ids of the cart lines, one per line |
| CartScreen.Recommended | src/App/Pages/Cart/CartScreen.tsx:38-42 | the FIRST four catalog products not in the cart: exactly the eligible products of a catalog prefix that is either the whole catalog or already holds four of them; in catalog order; all eligible ones when fewer than four are shown |
| CartScreen.RecommendedForEmptyCart | src/App/Pages/Cart/CartScreen.tsx:38-42 | an empty cart recommends the first four catalog products |
| CartScreen.HandleCheckout | src/App/Pages/Cart/CartScreen.tsx:44-50 | an alert exactly when the cart is empty; otherwise navigation to checkout |
| CartScreen.QuantityModal.constructor | src/App/Pages/Cart/CartScreen.tsx:35-36 | hidden with no selection |
| CartScreen.QuantityModal.Open | src/App/Pages/Cart/CartScreen.tsx:58-61 | shows the modal for the line |
| CartScreen.QuantityModal.Dismiss | src/App/Pages/Cart/CartScreen.tsx:236-245 | hides the modal and keeps the selection |
| CartScreen.QuantityModal.HandleQuantitySelect | src/App/Pages/Cart/CartScreen.tsx:52-56 | updates the product, hides the modal and clears the selection; chips 1 to 10 keep every line |
| CartScreen.FractionalPart | src/App/Pages/Cart/CartScreen.tsx:75 | JavaScript `% 1`: in [0, 1) for non-negative values, in (-1, 0] for negative ones |
| CartScreen.Stars | src/App/Pages/Cart/CartScreen.tsx:73-91 | no stars (`Array` of a negative length throws a RangeError) exactly for a rating below 0 or of 5.5 and above; otherwise full stars are the floor, the half star appears exactly for a fraction of at least one half, and the three non-negative parts make five |
| CartScreen.QuickAdd | src/App/Pages/Cart/CartScreen.tsx:155-161 | adds one unit in the default size and colour and confirms it |
| CatalogQueries.SortKeyOf | src/App/Pages/Shop/CategoryDetailsScreen.tsx:65-80 | a comparator exactly for the four sort options; none for any other string |
| CatalogQueries.SortedByMeaning | src/App/Pages/Shop/CategoryDetailsScreen.tsx:65-80 | each comparator orders its field ascending or descending, as named |
| CatalogQueries.SortedPrefix | src/App/Pages/Home/ShopScreen.tsx:67-69 | the first ten of a sorted list are sorted |
| CatalogQueries.Swap | src/App/Pages/Shop/CategoryDetailsScreen.tsx:67 | exchanges two elements; the array stays a permutation |
| CatalogQueries.Insert | src/App/Pages/Shop/CategoryDetailsScreen.tsx:67 | extends the sorted prefix by one element, as a permutation |
| CatalogQueries.Sort | src/App/Pages/Shop/CategoryDetailsScreen.tsx:66-77 | `sort` with a comparator leaves the array sorted by it and a permutation of the original |
| CatalogQueries.SubCategoryFilter | src/App/Pages/Shop/CategoryDetailsScreen.tsx:47-52 | 'All' keeps the list; otherwise exactly the products whose category contains it, ignoring case |
| CatalogQueries.SearchFilter | src/App/Pages/Shop/CategoryDetailsScreen.tsx:54-59 | an empty query keeps the list; otherwise exactly the products whose name contains it, ignoring case |
| CatalogQueries.CategoryProducts | src/App/Pages/Shop/CategoryDetailsScreen.tsx:43-59 | never longer than the catalog and only catalog products; `CategoryProductsExact` says which |
| CatalogQueries.CategoryProductsExact | src/App/Pages/Shop/CategoryDetailsScreen.tsx:43-59 | a product is listed exactly when it passes both active filters |
| CatalogQueries.CategoryProductsUnfiltered | src/App/Pages/Shop/CategoryDetailsScreen.tsx:43-59 | with 'All' and no query the whole catalog is listed, in order |
| CatalogQueries.GetSortedProducts | src/App/Pages/Shop/CategoryDetailsScreen.tsx:62-84 | a sorted permutation for the four options; the unchanged list for any other |
| CatalogQueries.CategoryDetailsList | src/App/Pages/Shop/CategoryDetailsScreen.tsx:43-86 | the filtered products, sorted as chosen, with the catalog left in place |
| CatalogQueries.TopPicks | src/App/Pages/Home/ShopScreen.tsx:66-69 | sorts the shared catalog by rating in place and takes its first ten |
| CatalogQueries.TabFilter | src/App/Pages/Home/ShopScreen.tsx:72-81 | 'All' keeps the list, '5-Star Rated' keeps exactly rating 5 in order, 'New' reverses it |
| CatalogQueries.GetFilteredProducts | src/App/Pages/Home/ShopScreen.tsx:72-90 | the tab step then the search step; 'Best Selling Items' sorts the shared catalog by reviews in place |
| CatalogQueries.RenderShopScreen | src/App/Pages/Home/ShopScreen.tsx:66-92 | after the top picks sort, the 'All' tab without a query is the rating-sorted catalog |
| CategoryGrid.Chunk | src/App/Components/Shop/CategoryGrid.tsx:39-43 | the slices of a stepped loop lay end to end to the input; all are full except possibly the last, none is empty |
| CategoryGrid.GroupedItems | src/App/Components/Shop/CategoryGrid.tsx:37-44 | pages of eight covering the items in order; ceil(n/8) pages; none for no items |
| CategoryGrid.ColumnSlots | src/App/Components/Shop/CategoryGrid.tsx:57-73 | a column draws its tiles, plus a placeholder under a lone tile |
| CategoryGrid.TilesOfColumn | src/App/Components/Shop/CategoryGrid.tsx:59-73 | reading a drawn column back gives the column |
| CategoryGrid.DrawColumns | src/App/Components/Shop/CategoryGrid.tsx:57-75 | every column is drawn, in order |
| CategoryGrid.PageTilesColumns | src/App/Components/Shop/CategoryGrid.tsx:57-75 | the drawn columns show the columns' items in order |
| CategoryGrid.PageTilesEmptyColumns | src/App/Components/Shop/CategoryGrid.tsx:77-79 | filler columns show nothing |
| CategoryGrid.RenderPage | src/App/Components/Shop/CategoryGrid.tsx:46-80 | a page shows its items in order, in at least four columns; full columns have two slots and filler columns none; an odd page ends in a tile over a placeholder |
| CategoryGrid.DrawnShape | src/App/Components/Shop/CategoryGrid.tsx:57-79 | drawn columns have two slots, filler columns have none |
| CategoryGrid.LastColumnOfOddPage | src/App/Components/Shop/CategoryGrid.tsx:49-52 | on an odd page the last column holds only the last item |
| TabBar.DecimalString | navigation/CustomTabBar.tsx:190 | `String(n)` gives decimal digits that read back as n |
| TabBar.CartBadge | navigation/CustomTabBar.tsx:187-193 | a badge exactly for a positive count: "99+" above 99, otherwise the count in one or two digits |
| TabBar.BaseIcon | navigation/CustomTabBar.tsx:125-138 | the icon per tab; `IconsOfTabs` states the fallback and distinctness |
| TabBar.IconName | navigation/CustomTabBar.tsx:124-142 | the base icon, with ".fill" exactly for the focused tab |
| TabBar.IconsOfTabs | navigation/CustomTabBar.tsx:125-138 | unknown tabs use the circle; the four tabs have distinct icons |
| TabBar.DisplayLabel | navigation/CustomTabBar.tsx:145-158 | "Shop" is shown as "Home"; every other name as itself |
| TabBar.OnPress | navigation/CustomTabBar.tsx:92-114 | the cart tab opens the root cart screen and nothing else; other tabs emit the event and navigate exactly when unfocused and not prevented |
| RootNavigator.RootRoutes | navigation/RootNavigator.tsx:57-237 | splash exactly while loading; onboarding alone until seen; the guest stack starts at login; the member stack starts at the main tabs and has no auth screens |
| RootNavigator.OrderSuccessNeverRegistered | navigation/RootNavigator.tsx:68-237 | no state registers `OrderSuccess`, although checkout is registered once onboarding is seen |
| RootNavigator.CorrectedRootRoutes | navigation/RootNavigator.tsx:68-237 | the corrected guard keeps every property of the guard as written |
| RootNavigator.CheckoutAlwaysLands | navigation/RootNavigator.tsx:68-237 | in the corrected guard, checkout implies `OrderSuccess`, and every other route is registered as before |
| RootNavigator.MountEffect | navigation/RootNavigator.tsx:47-55 | loading seen at mount is switched off; nothing else changes |
| Onboarding.OnboardingScreen.constructor | src/App/Pages/Onboarding/OnboardingScreen.tsx:53 | starts on the first slide |
| Onboarding.OnboardingScreen.GoToNext | src/App/Pages/Onboarding/OnboardingScreen.tsx:89-95 | the next slide, or on the last one onboarding completes and the index stays |
| Onboarding.OnboardingScreen.GoToPrevious | src/App/Pages/Onboarding/OnboardingScreen.tsx:97-101 | the previous slide; nothing on the first |
| Onboarding.OnboardingScreen.GoToSlide | src/App/Pages/Onboarding/OnboardingScreen.tsx:103-105 | the tapped slide |
| Onboarding.OnboardingScreen.FinishOnboarding | src/App/Pages/Onboarding/OnboardingScreen.tsx:162-175 | "Get started" and "Login here" complete onboarding from any slide |
| Onboarding.WalkThrough | src/App/Pages/Onboarding/OnboardingScreen.tsx:89-95 | three arrow taps reach the last slide and a fourth completes onboarding |
| Profile.FirstCharText | src/App/Pages/Profile/ProfileScreen.tsx:95 | the first character, or "undefined" for an empty part |
| Profile.FirstTwo | src/App/Pages/Profile/ProfileScreen.tsx:97 | `substring(0, 2)` is the prefix of length min(2, length) |
| Profile.InitialsAsWritten | src/App/Pages/Profile/ProfileScreen.tsx:91-100 | `getUserInitials` as written; see `AsWrittenOnWellSpacedNames` and `TrailingSpaceInitials` |
| Profile.DisplayNameAsWritten | src/App/Pages/Profile/ProfileScreen.tsx:103-112 | `getDisplayName` as written; see `AsWrittenOnWellSpacedNames` and `TrailingSpaceDisplayName` |
| Profile.AsWrittenOnWellSpacedNames | src/App/Pages/Profile/ProfileScreen.tsx:90-112 | defaults without a name; first two letters and the name for one part; two upper-cased initials and "first L." for two non-empty parts |
| Profile.TrailingSpaceInitials | src/App/Pages/Profile/ProfileScreen.tsx:91-100 | as written, "Ann " gives the initials "AUNDEFINED" |
| Profile.TrailingSpaceDisplayName | src/App/Pages/Profile/ProfileScreen.tsx:103-112 | as written, "Ann " is displayed as "Ann undefined." |
| Profile.Words | src/App/Pages/Profile/ProfileScreen.tsx:93 | the non-empty space-free parts of a name |
| Profile.Initials | src/App/Pages/Profile/ProfileScreen.tsx:91-100 | corrected: always one or two characters; the upper-cased initials of the first two words |
| Profile.DisplayName | src/App/Pages/Profile/ProfileScreen.tsx:103-112 | corrected: never empty; "first L." from the first two words |
| Profile.CorrectedAgreesOnWellSpacedNames | src/App/Pages/Profile/ProfileScreen.tsx:90-112 | on names without empty parts the corrected functions agree with the code as written |
| Profile.TrailingSpaceCorrected | src/App/Pages/Profile/ProfileScreen.tsx:90-112 | corrected, "Ann " gives "AN" and is displayed as itself |
| OrderCard.StatusOf | src/App/Components/Order/OrderCard.tsx:6 | each declared status string is read as its own status, any other string as `Other` carrying it |
| OrderCard.StatusTitle | src/App/Components/Order/OrderCard.tsx:32-59 | the fallback title "Order" exactly for an undeclared status |
| OrderCard.StatusTitleDistinct | src/App/Components/Order/OrderCard.tsx:32-51 | the three declared statuses have distinct titles |
| OrderCard.Buttons | src/App/Components/Order/OrderCard.tsx:92-113 | cancel and track exactly for received orders; rate and reorder exactly for delivered ones; none for cancelled |
| OrderCard.ButtonCalls | src/App/Components/Order/OrderCard.tsx:92-113 | every button calls its callback with the card's own order id |
| Notifications.InitialSettings | src/App/Pages/Profile/NotificationsScreen.tsx:19-30 | the four listed settings, all on |
| Notifications.Toggled | src/App/Pages/Profile/NotificationsScreen.tsx:32-34 | only the id's switch flips; an unknown id is added switched on |
| Notifications.ToggleTwice | src/App/Pages/Profile/NotificationsScreen.tsx:32-34 | toggling a setting twice restores the settings |
| Notifications.TogglesCommute | src/App/Pages/Profile/NotificationsScreen.tsx:32-34 | toggles of different settings commute |
| Notifications.NotificationsScreen.constructor | src/App/Pages/Profile/NotificationsScreen.tsx:28-30 | starts with every setting on |
| Notifications.NotificationsScreen.ToggleSetting | src/App/Pages/Profile/NotificationsScreen.tsx:32-34 | the settings become `Toggled(old settings, id)` |

## Left out

- Persistence I/O: AsyncStorage reads and writes, and their JSON encoding, are not modelled. What `partialize` keeps and how rehydration merges it are modelled. A failed storage read is the `readFailed` parameter.
- Timers and clocks: the simulated network delays (1000 ms and 100 ms), the mount timer and `Date.now()`. The timestamp is a parameter of `OrderId`, `HandleOrderAndPay` and `Signup`.
- Asynchronous interleaving: `login` and `signup` set `isLoading` to true before awaiting. The model shows each action's state after its `await`s complete, not the intermediate state other code could observe meanwhile.
- AuthStore.AuthStore.Login: the rejected promise ('Invalid credentials') is returned as an outcome value rather than thrown.
- Signup.SignupScreen.HandleSignup: the `catch` branch ('Signup failed') is not modelled. The store's `signup` never throws once storage I/O is left out.
- Animations, haptics, styles, images, descriptions, colours and layout sizes are not modelled, nor are bottom-sheet snap points.
- CatalogQueries.Sort: proves sortedness and permutation, not stability. `Array.prototype.sort` is stable, so the order of equal elements is not stated.
- Unicode: text is ASCII. `toLowerCase`/`toUpperCase` map only A–Z/a–z, and whitespace is the ASCII part of `\s`.
- Text.Split: modelled for a single-character separator, the only kind the core uses.
- The product catalog's data (`src/data/products.ts`) is not part of this model: the catalog is a parameter.
- Notifications.Toggled: JavaScript object keys such as `__proto__` are not modelled; a map key is any string.
- Screens named only as routes (login, reviews, top picks, search, order success, my orders and the other profile pages) are outside the core and are not modelled.
- Route parameters that decide nothing (category name, product images) are left out.
- Checkout.Taxes: the contract bounds the taxes; the exact 8% figure appears in `GrandTotalBands`.
- Checkout: the price sheet and quantity sheet open/close animations are not modelled. Only the sheet state after a quantity choice is.

## Findings

| source | as written | input that shows it | evidently intended | confidence | as-written member | corrected member |
|---|---|---|---|---|---|---|
| src/App/Pages/Cart/CheckoutScreen.tsx:157-158, navigation/RootNavigator.tsx:68-237 | checkout empties the cart and then navigates to `OrderSuccess`, a route no state of the root stack registers | any signed-in user who picks a payment method and presses "order and pay" | `OrderSuccess` registered next to `Checkout` in both stacks | not executed | RootNavigator.OrderSuccessNeverRegistered | RootNavigator.CheckoutAlwaysLands |
| src/App/Pages/Profile/ProfileScreen.tsx:93-108 | the name is split on single spaces and `names[1][0]` is read even when that part is empty | the name "Ann " gives initials "AUNDEFINED" and display name "Ann undefined." | empty parts skipped: initials "AN", two characters at most | not executed | Profile.TrailingSpaceInitials | Profile.TrailingSpaceCorrected |
