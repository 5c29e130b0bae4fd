# Shopper-service storefront: cart pricing and shopping rules in Dafny

This project models the shopping core of a React/TypeScript storefront for
home services. It covers:

- the cart and how it is priced: promo codes, quantity discounts, totals,
  saved snapshots, share links and the local-storage and database shapes of
  a cart;
- re-ordering a past order into the cart;
- the comparison and favourites lists;
- the loyalty tier ladder;
- the payment form's field rules and the records its submit handlers build;
- the default flag on saved payment methods and saved addresses;
- service customization and scheduling;
- related-service suggestions;
- the provider filters and the provider search.

The code follows the source's own form:

- **Values become datatypes and functions.** Services, cart lines, snapshots,
  promo results, payment methods and addresses are datatypes. The pure helpers
  of `src/lib/cart.ts`, `src/context/cart/cartUtils.ts` and
  `src/data/providers.ts` are functions.
- **React state becomes classes.** The state a component or context keeps with
  `useState` and replaces in its handlers is a class whose fields the handler
  methods reassign under `modifies this`. These classes are `CartContext.Cart`,
  `Compare.CompareList`, `Favorites.FavoriteList`, `ReOrder.ReOrderPage`,
  `PaymentMethods.PaymentMethodsPanel`, `SavedAddresses.AddressBook`,
  `Customization.CustomizationPicker`, `Scheduling.Scheduler` and
  `ProviderFilters.FilterBar`.
- **Loops become methods with invariants.** Each is proved against a
  specification function. These are:
  - the tier scan of `calculateQuantityDiscounts` (`Pricing.LineDiscount`,
    `Pricing.CalculateQuantityDiscounts`);
  - `getCurrentTier` (`Loyalty.GetCurrentTier`);
  - the set-building loops of `getAllSpecialties`;
  - the seeding effect and the nested add loop of the re-order page.
- **Callbacks become out-parameters.** A handler that reports to its parent
  (`onSelectPayment`, `onCustomizationChange`, `onScheduleSelect`, the
  filter callbacks) returns what it reports.

Money and rates are `real`. Text is `seq<char>`. Case mapping is the ASCII
part of `toUpperCase`/`toLowerCase`. The default `sort` order is modelled as
code-point order (`Text.Less`). This agrees with the UTF-16 code-unit order of
JavaScript on text without characters above U+FFFF.

Two behaviours of the code worth noting:

- `addToCart` does not recompute quantity discounts (src/context/CartContext.tsx:90-116).
  So five adds of a $100 service show 500, not 475. Only `updateQuantity`
  recomputes the discounts, which gives 475. SAVE20 is then computed on the
  gross 500, so the discounted total is 375. `CartContext.RepeatedAddsScenario`
  proves this sequence.
- `updateQuantity` with an id not in the cart is not a no-op. It still
  recomputes every line's discount (src/context/CartContext.tsx:130-141;
  `CartContext.UpdateQuantitySpec`).

## Model

| member | source | states |
|---|---|---|
| Pricing.ApplyPromoCode | src/lib/cart.ts:24-64 | a code is accepted iff its upper-cased form is in the table and its minimum, when set and non-zero, is met; a rejected code carries no discount |
| Pricing.PromoCaseInsensitive | src/lib/cart.ts:28-29 | the result does not depend on the case of the code |
| Pricing.PromoUnknown | src/lib/cart.ts:31-37 | an unknown code yields invalid, 0 and "Invalid promo code" |
| Pricing.PromoMinimum | src/lib/cart.ts:40-46 | a code with a minimum is rejected iff the total is strictly below it, with the "Requires minimum purchase of $N" message |
| Pricing.PromoPercentage | src/lib/cart.ts:48-56 | a percentage code takes that share of the total, and so lies between 0 and a non-negative total |
| Pricing.PromoFlat25 | src/lib/cart.ts:8-11 | FLAT25 is accepted iff the total is at least 150, and then gives exactly 25 |
| Pricing.RateIsHighestReached | src/lib/cart.ts:15-19 | the rate used is that of the highest threshold the quantity reaches, 0 below 5 |
| Pricing.RateSteps | src/lib/cart.ts:15-19 | the per-unit rate as a step function of the quantity: 0, 5%, 10%, 15% |
| Pricing.UnitDiscountMonotone | src/lib/cart.ts:69-86 | more units never earn a smaller per-unit discount, which never exceeds 15% of the price |
| Pricing.LineDiscount | src/lib/cart.ts:73-79 | the descending scan with early exit computes the unit price times the rate of the highest tier reached |
| Pricing.CalculateQuantityDiscounts | src/lib/cart.ts:69-86 | every line gets its discount recomputed from its own quantity |
| Pricing.QuantityDiscountedKeepsLines | src/lib/cart.ts:69-86 | the recomputation keeps length, order, service, quantity and notes |
| Pricing.QuantityDiscountedIdempotent | src/lib/cart.ts:69-86 | recomputing twice equals recomputing once |
| Pricing.FormatSharedCartData | src/lib/cart.ts:91-102 | the payload has one entry per line with its id, quantity and notes (empty when absent), plus the promo code |
| Pricing.SharedDataIgnoresDiscounts | src/lib/cart.ts:91-102 | the payload does not depend on the lines' applied discounts |
| CartContext.AddLineValid | src/context/CartContext.tsx:90-116 | adding keeps one line per service id and every quantity at least 1 |
| CartContext.AddLinePresent | src/context/CartContext.tsx:92-105 | adding a listed service raises only that line's quantity by one |
| CartContext.AddLineAbsent | src/context/CartContext.tsx:106-113 | adding a new service appends one line with quantity 1, the notes or "" and discount 0 |
| CartContext.RemoveLineSpec | src/context/CartContext.tsx:118-128 | removal drops exactly the lines with that id and keeps the others in order |
| CartContext.RemoveLineValid | src/context/CartContext.tsx:118-128 | removal keeps the one-line-per-service invariant |
| CartContext.UpdateQuantitySpec | src/context/CartContext.tsx:130-141 | the matching line takes the new quantity; every line's discount is recomputed, even when the id is absent |
| CartContext.SetNotesSpec | src/context/CartContext.tsx:143-149 | only the matching line's notes change |
| CartContext.DiscountedTotal | src/context/CartContext.tsx:165-176 | the result is the subtotal less item and promo discounts, floored at 0 |
| CartContext.DiscountedTotalBounds | src/context/CartContext.tsx:165-176 | with non-negative discounts the discounted total never exceeds the subtotal |
| CartContext.RecomputedDiscountsBounded | src/context/CartContext.tsx:165-172 | after recomputation the item discounts lie between 0 and 15% of the subtotal |
| CartContext.AddLineTotalsPresent | src/context/CartContext.tsx:158-180 | adding a listed service raises the item count by one and the subtotal by its price |
| CartContext.AddLineTotalsAbsent | src/context/CartContext.tsx:158-180 | adding a new service raises the item count by one and the subtotal by its price |
| CartContext.AddTimesAbsent | src/context/CartContext.tsx:90-116 | n adds of a new service give one line of quantity n with discount 0 |
| CartContext.RepeatedAddsScenario | src/context/CartContext.tsx:90-176 | five adds at $100 total 500; updateQuantity gives 475; SAVE20 gives 100 off the gross, leaving 375 |
| CartContext.SingleLineTotals | src/context/CartContext.tsx:158-172 | a one-line cart totals that line's price times quantity and its discount times quantity |
| CartContext.FindSavedCart | src/context/CartContext.tsx:203-204 | finds the snapshot with that id, or none iff no snapshot has it |
| CartContext.FindAppended | src/context/CartContext.tsx:182-201 | a freshly saved snapshot is found by its id |
| CartContext.AddLine | src/context/CartContext.tsx:90-116 | afterwards the service has a line; the line count grows by one iff it had none; every other service's line is unchanged |
| CartContext.RemoveLine | src/context/CartContext.tsx:118-128 | a line survives iff it was in the cart and carries another id; the cart never grows |
| CartContext.SetQuantity | src/context/CartContext.tsx:130-141 | same length; lines differ only in quantity, matching lines take the new one, and an unlisted id changes nothing |
| CartContext.SetNotes | src/context/CartContext.tsx:143-149 | same length; lines differ only in notes, matching lines take the new ones, and an unlisted id changes nothing |
| CartContext.CartTotal | src/context/CartContext.tsx:158-163 | an empty cart totals 0; a one-line cart totals price times quantity |
| CartContext.CartTotalNonNegative | src/context/CartContext.tsx:158-163 | non-negative prices and quantities give a non-negative subtotal |
| CartContext.ItemCount | src/context/CartContext.tsx:178-180 | with every quantity at least 1 the count is at least the number of lines |
| CartContext.ItemDiscounts | src/context/CartContext.tsx:165-172 | non-negative line discounts sum to non-negative item discounts |
| CartContext.SetFiveOnOneLine | src/context/CartContext.tsx:130-141 | setting a one-line $100 cart to 5 and recomputing gives a $5 per-unit discount |
| CartContext.Save20On500 | src/lib/cart.ts:48-56 | SAVE20 on a 500 total is accepted with 100 off and the "20% discount applied" message |
| CartContext.SavedCartName | src/context/CartContext.tsx:188 | the name is "Cart " and decimal digits that read back as the number |
| CartContext.RestoredPromoCode | src/context/CartContext.tsx:211 | a missing or empty stored code restores no code; any other is restored as it is |
| CartContext.ShareLink | src/context/CartContext.tsx:228 | the shared-cart route recovers the snapshot id from the link |
| CartContext.RouteCartId | src/App.tsx:41 | a link matches iff it starts with the origin and "/shared-cart/", and the id is the rest of the link |
| CartContext.Cart.AddToCart | src/context/CartContext.tsx:90-116 | the new lines are the old ones with the service added; promo and snapshots are kept |
| CartContext.Cart.RemoveFromCart | src/context/CartContext.tsx:118-128 | the lines lose that id; nothing else changes |
| CartContext.Cart.UpdateQuantity | src/context/CartContext.tsx:130-141 | below 1 nothing changes; otherwise the quantity is set and every line's discount recomputed |
| CartContext.Cart.UpdateCartItemNotes | src/context/CartContext.tsx:143-149 | only the notes of the matching line change |
| CartContext.Cart.ClearCart | src/context/CartContext.tsx:151-156 | no lines, no promo code, promo discount 0; snapshots kept |
| CartContext.Cart.ApplyPromoCode | src/context/CartContext.tsx:239-250 | validated against the gross subtotal; on success the code as typed and its discount are stored, otherwise nothing changes |
| CartContext.Cart.RemovePromoCode | src/context/CartContext.tsx:252-256 | the promo code and discount are cleared |
| CartContext.Cart.SaveCartForLater | src/context/CartContext.tsx:182-201 | an empty cart saves nothing; otherwise a snapshot "Cart N" with the lines and promo is appended and its id returned |
| CartContext.Cart.LoadSavedCart | src/context/CartContext.tsx:203-214 | a known id restores its lines, promo code (empty becomes none) and discount; an unknown id changes nothing |
| CartContext.Cart.ShareCart | src/context/CartContext.tsx:220-237 | saves a snapshot and returns origin + "/shared-cart/" + its id; an empty cart yields no link |
| CartContext.Cart.OpenSharedCart | src/pages/SharedCart.tsx:13-26 | a listed id loads that snapshot and reports success; otherwise the cart is untouched |
| CartUtils.TransformDbCartToAppCart | src/context/cart/cartUtils.ts:17-24 | a database row becomes a snapshot with the same id, name and lines and no promo |
| CartUtils.DatabaseRoundTripDropsPromo | src/context/cart/cartUtils.ts:17-24 | a snapshot sent through the database shape keeps id, name and lines but loses its promo |
| CartUtils.CreateLocalSavedCart | src/context/cart/cartUtils.ts:60-74 | the local snapshot holds the given id, name, lines and promo |
| CartUtils.HandlePromoCode | src/context/cart/cartUtils.ts:77-80 | delegates to the promo rules unchanged |
| CartUtils.LoadCartFromLocalStorage | src/context/cart/cartUtils.ts:47-57 | nothing stored gives the empty cart with no promo |
| CartUtils.LocalStorageRoundTrip | src/context/cart/cartUtils.ts:27-57 | loading what was saved gives back the lines, promo code and discount; with JSON left out this only restates the stored-record shape |
| ReOrder.InitialState | src/pages/ReOrder.tsx:37-50 | the seeding loop builds exactly the initial selection and quantity maps |
| ReOrder.InitialSelectionSpec | src/pages/ReOrder.tsx:42-43 | initially exactly the ordered services are selected, each with flag true |
| ReOrder.InitialQuantitiesSpec | src/pages/ReOrder.tsx:42-45 | the quantity map covers the same ids, and each id gets the quantity of its last order item |
| ReOrder.QuantityFor | src/pages/ReOrder.tsx:97 | `quantities[id] \|\| item.quantity`: a positive recorded quantity wins, else the ordered one; at least 1 when the ordered one is and none recorded is negative |
| ReOrder.ItemTotal | src/pages/ReOrder.tsx:123-125 | a non-negative price and quantity give a non-negative line total |
| ReOrder.CalculateTotal | src/pages/ReOrder.tsx:120-129 | nothing selected totals 0; non-negative prices and quantities give a non-negative total |
| ReOrder.AddRepeatedly | src/pages/ReOrder.tsx:111-113 | the inner loop leaves the cart as that many adds of the service; promo and snapshots kept |
| ReOrder.ReOrderPage.HandleItemSelection | src/pages/ReOrder.tsx:69-74 | sets that id's flag; quantities kept |
| ReOrder.ReOrderPage.HandleQuantityChange | src/pages/ReOrder.tsx:76-84 | records the parsed quantity only when the text parses to a positive integer |
| ReOrder.ReOrderPage.HandleAddToCart | src/pages/ReOrder.tsx:86-118 | with nothing selected no cart call is made; otherwise each selected item is added its chosen number of times, in order |
| ReOrder.ReorderIntoEmptyCart | src/pages/ReOrder.tsx:86-118 | on an empty cart, distinct selected items with positive quantities become one line each with that quantity |
| ReOrder.SelectionTotalIsCartTotal | src/pages/ReOrder.tsx:120-129 | the page's total equals the subtotal that adding the selection to an empty cart produces |
| Compare.CompareList.AddToCompare | src/context/compare/CompareContext.tsx:20-39 | a listed id is refused first, then a full list of 3; otherwise the service is appended; at most 3 entries and unique ids are kept |
| Compare.CompareList.RemoveFromCompare | src/context/compare/CompareContext.tsx:41-45 | the id is gone and the rest keep their order |
| Compare.CompareList.IsInCompareList | src/context/compare/CompareContext.tsx:47-49 | true iff some entry has that id |
| Compare.CompareList.ClearCompareList | src/context/compare/CompareContext.tsx:51-53 | the list is empty |
| Favorites.FavoriteList.AddFavorite | src/context/favorites/FavoritesContext.tsx:40-47 | the id is a favourite afterwards; a listed id leaves the list as it was; unique ids are kept |
| Favorites.FavoriteList.RemoveFavorite | src/context/favorites/FavoritesContext.tsx:49-53 | the id is no longer a favourite; the others keep their order |
| Favorites.FavoriteList.IsFavorite | src/context/favorites/FavoritesContext.tsx:55-57 | true iff some favourite has that id |
| ServiceList.Includes | src/context/favorites/FavoritesContext.tsx:55-57 | `some` by id holds iff an element carries the id |
| ServiceList.Without | src/context/compare/CompareContext.tsx:41-45 | keeps exactly the elements with another id, in order |
| ServiceList.WithoutAbsent | src/context/favorites/FavoritesContext.tsx:49-53 | removing an unlisted id changes nothing |
| ServiceList.WithoutUnique | src/context/favorites/FavoritesContext.tsx:49-53 | removal keeps ids unique |
| ServiceList.WithAddedSpec | src/context/favorites/FavoritesContext.tsx:40-47 | adding lists the id, appends only when absent, keeps ids unique and is idempotent |
| Loyalty.GetCurrentTier | src/pages/LoyaltyProgram.tsx:112-121 | the descending scan with break returns the tier of the highest threshold reached, Bronze by default |
| Loyalty.CurrentTierIsHighestReached | src/pages/LoyaltyProgram.tsx:54-89 | for a non-negative balance the tier's threshold is reached and no higher one is |
| Loyalty.CurrentTierMonotone | src/pages/LoyaltyProgram.tsx:112-121 | more points never give a lower tier |
| Loyalty.FindTierIndex | src/pages/LoyaltyProgram.tsx:124-126 | `findIndex` by name: the first tier with that name, or -1 iff none |
| Loyalty.GetNextTier | src/pages/LoyaltyProgram.tsx:123-131 | no next tier iff the current tier is the last; otherwise the row after the current one, whose threshold is above the balance |
| Loyalty.PointsToNextTier | src/pages/LoyaltyProgram.tsx:136 | never negative, and positive iff there is a next tier |
| Loyalty.NextTierSpec | src/pages/LoyaltyProgram.tsx:123-136 | no next tier iff the balance reaches 2000 points; below that the points needed are positive |
| Loyalty.InitialBalanceTiers | src/pages/LoyaltyProgram.tsx:16-17 | 750 points: Silver, next Gold, 250 to go |
| Loyalty.RewardButton | src/pages/LoyaltyProgram.tsx:219-223 | the button is disabled iff the balance is below the reward's cost, and reads "Redeem" iff enabled |
| Loyalty.InitialBalanceRewards | src/pages/LoyaltyProgram.tsx:91-110 | with 750 points the 200- and 500-point rewards are redeemable and the 1000-point one is not |
| PaymentForm.RepeatMatchSpec | src/components/PaymentForm.tsx:182 | the character-by-character reading of `^[c]{lo,hi}$` matches iff the length is within bounds and every character is in the class |
| PaymentForm.IsCardNumber | src/components/PaymentForm.tsx:182 | the card number is exactly 16 digits |
| PaymentForm.IsCvv | src/components/PaymentForm.tsx:225 | the CVV is 3 or 4 digits |
| PaymentForm.IsAccountNumber | src/components/PaymentForm.tsx:338 | the account number is 8 to 17 digits |
| PaymentForm.IsRoutingNumber | src/components/PaymentForm.tsx:359 | the routing number is exactly 9 digits |
| PaymentForm.EmailShape | src/components/PaymentForm.tsx:271 | a text split as local part, "@", domain, "." and a top-level part has at least 6 characters and exactly one "@" |
| PaymentForm.IsEmail | src/components/PaymentForm.tsx:271 | an accepted email has at least 6 characters and exactly one "@" |
| PaymentForm.CheckField | src/components/PaymentForm.tsx:163-378 | no message iff the value is non-empty and matches; an empty value gets the required message, a mismatch the pattern message |
| PaymentForm.MaskCardNumber | src/components/PaymentForm.tsx:79 | the mask prefix followed by the number's last four characters when it has four |
| PaymentForm.ExpiryDateIsMonthSlashYear | src/components/PaymentForm.tsx:204 | an expiry passes iff it is two digits naming month 1-12, a slash and two digits |
| PaymentForm.SubmittedId | src/components/PaymentForm.tsx:82 | the submitted id is the initial payment's id, or "" without one |
| PaymentForm.MaskKeepsLastFour | src/components/PaymentForm.tsx:79 | the stored number is 15 mask characters and the last four digits; cards ending alike mask alike |
| PaymentForm.SubmitCreditCard | src/components/PaymentForm.tsx:76-96 | submits iff the name is set and number, expiry and CVV match their patterns; the record is a card with the masked number |
| PaymentForm.SubmitPayPal | src/components/PaymentForm.tsx:98-113 | submits iff the email matches the pattern; the record holds only the email |
| PaymentForm.SubmitBankTransfer | src/components/PaymentForm.tsx:115-131 | submits iff both names are set and the account and routing numbers match their patterns |
| PaymentForm.BankTransferKeepsOnlyNumbers | src/components/PaymentForm.tsx:118-124 | the record keeps only the account and routing numbers; the names do not affect it |
| PaymentForm.FirstError | src/components/PaymentForm.tsx:178-228 | no message iff every field rule passes |
| PaymentForm.CreditCardDefaults | src/components/PaymentForm.tsx:52-59 | card number and CVV always start blank |
| PaymentForm.InitialPaymentType | src/components/PaymentForm.tsx:47-49 | the first tab is the initial payment's kind, else the card tab |
| PaymentMethods.NewPayment | src/components/PaymentMethods.tsx:55-60 | the new method carries the new id and the given kind and details, and is default iff the list was empty |
| PaymentMethods.GetPaymentLabel | src/components/PaymentMethods.tsx:93-108 | the label is "Cash on delivery" iff the method is cash; PayPal labels start "PayPal ("; bank labels start "Bank Account ending in " and add at most the last four characters or "undefined" |
| PaymentMethods.WithDefault | src/components/PaymentMethods.tsx:72-78 | each method is kept with its flag set iff its id matches |
| PaymentMethods.WithDefaultExactlyOne | src/components/PaymentMethods.tsx:72-78 | with unique ids at most one method is default, and one is iff the id is listed |
| PaymentMethods.NewPaymentKeepsInvariant | src/components/PaymentMethods.tsx:55-66 | appending a fresh method keeps ids unique and at most one default |
| PaymentMethods.BankLabelShowsLastFour | src/components/PaymentMethods.tsx:99-102 | the bank label shows only the last four characters of the account |
| PaymentMethods.CashLabel | src/components/PaymentMethods.tsx:103-104 | cash reads "Cash on delivery" |
| PaymentMethods.PaymentMethodsPanel.HandleNewPayment | src/components/PaymentMethods.tsx:55-66 | appends the method with the new id, default iff the list was empty, and hands it to the parent |
| PaymentMethods.PaymentMethodsPanel.HandleSetDefault | src/components/PaymentMethods.tsx:72-78 | the list becomes the id-matched default flags |
| SavedAddresses.NewAddress | src/components/SavedAddresses.tsx:50-55 | the address gets the new id, keeps every other field, and is default iff the book was empty |
| SavedAddresses.WithDefault | src/components/SavedAddresses.tsx:67-73 | each address is kept with its flag set iff it has that id |
| SavedAddresses.WithDefaultExactlyOne | src/components/SavedAddresses.tsx:67-73 | with unique ids at most one address is default, and one is iff the id is listed |
| SavedAddresses.NewAddressKeepsInvariant | src/components/SavedAddresses.tsx:50-61 | appending a fresh address keeps ids unique and at most one default |
| SavedAddresses.AddressBook.HandleNewAddress | src/components/SavedAddresses.tsx:50-61 | appends the address with the new id, default iff the list was empty, and hands it to the parent |
| SavedAddresses.AddressBook.HandleSetDefault | src/components/SavedAddresses.tsx:67-73 | the list becomes the id-matched default flags |
| Customization.Preselected | src/components/ServiceCustomization.tsx:44-49 | only the selection changes; it is set iff the group is required and has options, and then is the first option |
| Customization.InitialCustomizations | src/components/ServiceCustomization.tsx:42-50 | given groups are used as they are; otherwise required groups preselect their first option and optional ones none |
| Customization.FindOption | src/components/ServiceCustomization.tsx:55-57 | the first option with that id, or none iff no option has it |
| Customization.WithOption | src/components/ServiceCustomization.tsx:53-64 | only groups with the id change, to the found option; length and order are kept |
| Customization.WithOptionSelects | src/components/ServiceCustomization.tsx:52-68 | choosing twice equals choosing once; a listed option ends up selected |
| Customization.CustomizationPicker.HandleOptionSelect | src/components/ServiceCustomization.tsx:52-68 | the new groups are stored and exactly they are reported |
| Scheduling.DayOfWeek | src/components/ServiceScheduling.tsx:24 | a day number from 0 to 6 that moves with the calendar day, day 0 of the count being a Thursday |
| Scheduling.AvailableTimeSlots | src/components/ServiceScheduling.tsx:21-31 | no slots iff no date; with a date, 3 slots iff the day is Sunday or Saturday |
| Scheduling.AvailableTimeSlotsSpec | src/components/ServiceScheduling.tsx:21-31 | no date gives no slots; weekends give 3 slots, weekdays 5; the offer repeats weekly |
| Scheduling.Scheduler.HandleDateChange | src/components/ServiceScheduling.tsx:35-38 | the date is replaced and the time slot cleared |
| Scheduling.Scheduler.HandleTimeSelect | src/components/ServiceScheduling.tsx:40-45 | the slot is recorded; the parent hears date and slot iff a date is set |
| Related.RelatedView | src/components/RelatedServices.tsx:17-34 | shown services number 1 to 3, come from the catalog and exclude the current one; same-category suggestions share its category |
| Related.RelatedViewSpec | src/components/RelatedServices.tsx:17-34 | never the current service, at most 3 in catalog order, same category when one exists, nothing iff no other service |
| ProviderFilters.Flattened | src/components/ProviderFilters.tsx:34-38 | every specialty a provider lists is collected |
| ProviderFilters.FlattenedSpec | src/components/ProviderFilters.tsx:34-38 | a text is collected iff some provider lists it as a specialty |
| ProviderFilters.Insert | src/components/ProviderFilters.tsx:40 | inserting into a strictly sorted list keeps it strictly sorted and adds exactly that element |
| ProviderFilters.SortDistinct | src/components/ProviderFilters.tsx:40 | sorting a repeat-free list gives a strictly ascending permutation of it |
| ProviderFilters.StrictlySortedUnique | src/components/ProviderFilters.tsx:31-41 | strictly sorted lists with the same elements are equal, so the order providers are listed in does not matter |
| ProviderFilters.GetAllSpecialties | src/components/ProviderFilters.tsx:31-41 | every provider's specialties, each once, in ascending order |
| ProviderFilters.FilterBar.ShowReset | src/components/ProviderFilters.tsx:134 | the reset button is hidden iff the query is empty, the specialty is "all" and the rating is at most 0 |
| ProviderFilters.FilterBar.HandleSearchChange | src/components/ProviderFilters.tsx:73-76 | stores and reports the query |
| ProviderFilters.FilterBar.HandleSpecialtyChange | src/components/ProviderFilters.tsx:78-81 | stores and reports the specialty |
| ProviderFilters.FilterBar.HandleRatingChange | src/components/ProviderFilters.tsx:83-86 | stores and reports the slider's first value |
| ProviderFilters.FilterBar.HandleReset | src/components/ProviderFilters.tsx:88-95 | query "", specialty "all", rating 0, all reported, and the reset button hidden (line 134) |
| ProviderSearch.FilterProviders | src/pages/Providers.tsx:21-28 | a subsequence of the providers holding exactly those that match |
| ProviderSearch.Matches | src/pages/Providers.tsx:22-27 | the empty query matches every provider; a name or description containing the lower-cased query matches |
| ProviderSearch.FilterProvidersKeeps | src/pages/Providers.tsx:22-27 | kept iff the lower-cased query occurs in the lower-cased name, description or a specialty |
| ProviderSearch.EmptyQueryKeepsAll | src/pages/Providers.tsx:21-28 | the empty query keeps every provider |
| ProviderSearch.SearchIgnoresQueryCase | src/pages/Providers.tsx:23-26 | the result does not depend on the case of the query |
| Providers.GetProviderById | src/data/providers.ts:94-96 | the first provider with that id, or none iff absent |
| Providers.GetServicesByProviderId | src/data/providers.ts:99-109 | an unknown provider gives []; otherwise exactly the services it lists, in catalog order |
| Text.NatToString | src/lib/cart.ts:42-62 | the decimal text is non-empty digits, one digit iff the number is below 10 |
| Text.Upper | src/lib/cart.ts:28 | same length, no lower-case letter left, every other character kept |
| Text.Lower | src/pages/Providers.tsx:23-26 | same length, no upper-case letter left, every other character kept |
| Text.Contains | src/pages/Providers.tsx:23 | a prefix is contained, and a contained needle is no longer than the text |
| Text.TrimStart | src/pages/ReOrder.tsx:77 | drops exactly the leading white space: the rest is a suffix that does not start with a space |
| Text.ParseInt | src/pages/ReOrder.tsx:77 | a number iff digits follow the leading white space and an optional sign; an all-digit text reads as its decimal value |
| Text.NatToStringRoundTrip | src/lib/cart.ts:42-62 | the decimal text of a number is digits without a leading zero and reads back as the number |
| Text.ParseIntOfNat | src/pages/ReOrder.tsx:77 | `parseInt` of a number's decimal text is that number |
| Text.ContainsAt | src/pages/Providers.tsx:23 | `includes` holds iff the needle occurs at some position |
| Text.LastChars | src/components/PaymentForm.tsx:79 | `slice(-n)` is the last n characters, or all of a shorter text; `slice(-0)` is the whole text |
| Text.LessTotal | src/components/ProviderFilters.tsx:40 | the default sort order ranks any two different texts |
| Text.LessTransitive | src/components/ProviderFilters.tsx:40 | the default sort order is transitive |
| Seqs.Filter | src/context/compare/CompareContext.tsx:43 | `filter` keeps exactly the satisfying elements, in order |
| Seqs.Any | src/context/compare/CompareContext.tsx:48 | `some` holds iff an element satisfies the test |

## Left out

- Browser and network effects are not modelled. This covers `localStorage` reads and writes, JSON (de)serialization, Supabase calls (the database helpers of `cartUtils.ts`), toasts, navigation and the clipboard. Where a value crosses them it is a parameter or result (`CartUtils.StoredCart`, `CartUtils.DbCart`).
- Generated ids and the clock are parameters. The snapshot id from `generateShareableCartId`, `new-${Date.now()}` and `savedAt` are passed in as `newId`. Callers must supply a fresh id.
- The re-order page's cart is modelled as the synchronous `CartContext.Cart`. The asynchronous cart provider the page imports is not part of this model.
- Floating point is not modelled. Money and rates are exact reals with no IEEE rounding. The loyalty progress percentage is omitted.
- Only ASCII letters change case. Unicode case mapping beyond ASCII is not modelled.
- Text.ParseInt reads base-ten digits only. Hexadecimal (`0x`) prefixes are not handled. Leading white space is the ECMAScript WhiteSpace and LineTerminator set.
- Text.Less compares code points, while JavaScript's default `sort` compares UTF-16 code units. The two orders differ only between characters above U+FFFF and those from U+E000 to U+FFFF.
- PaymentForm.IsEmail reads the `i` flag as accepting both cases of ASCII letters only.
- `getDay` is modelled by `Scheduling.DayOfWeek` on a local calendar-day count. Past-date disabling and date formatting are rendering concerns and are not modelled.
- React mechanics are not modelled. This covers batching, stale closures and effect timing. Each handler is one atomic step on the latest state.
- Rendering-only code is not modelled: icons, CSS classes, `isSubmitting`, the `isMobile` resize listener and the dialog open flags.
- PaymentMethods.GetPaymentLabel: payment kinds are a closed enumeration here, so the source's "Unknown payment method" fallback cannot arise.
- ProviderFilters.FilterBar.HandleRatingChange requires the slider's value array to hold at least one element, as a single-thumb slider always reports.
