# scraps-mobile business logic in Dafny

scraps-mobile is a marketplace app for surplus food. Partners (cafés and
restaurants) offer discounted "mystery boxes", also called food packages.
Most of the app is screens and styling. This project models the small,
sequential pieces of logic inside them and proves what they do:

- **Realtime package list** (`BusinessPackages`): the package list of one
  business. It is fetched, refreshed, and patched by the backend's INSERT /
  UPDATE / DELETE feed. It also carries the `loading` / `refreshing` /
  `error` flags.
- **Auth session store** (`Auth`): tokens in the device's secure key-value
  store, plus the signed-in user and a loading flag. Covers save / clear /
  read of tokens, restore on mount, refresh, OTP request and verify, and
  logout.
- **Order counter** (`OrderCounter`): a count bounded below by `min` and
  above by a truthy `max`.
- **Order amount input** (`OrderAmount`): the unit price, total, pay-button
  rule and checkout route of the box-amount picker.
- **Carousel pan gesture** (`Carousel`): `clamp`, dragging, and the
  end-of-gesture index step and snap offset.
- **Partner card** (`PartnerCard`): open-now test, box availability status
  and their labels.
- **Discount** (`Discount`): `Math.round(((o - d) / o) * 100)` over integer
  prices, and the badge rule.
- **Partner screen** (`PartnerScreen`): `loadPartnerData` and the choice
  between spinner, error and details views.
- **DTO transformers** (`FoodPackages`, `Partners`): `fromFoodPackageDto`
  and `fromPartnerDto`.
- **Time text** (`TimeFormat`): `formatTime`, zero-padded `HH:MM`.

`Decimal` models JavaScript's `String(n)` and `Number(s)` on integers.
`Wrappers` holds `Option`, which stands for `T | null` and `T | undefined`.

Modelling choices:

- Times are integers (epoch milliseconds, or hours). Prices and counts are
  integers. Carousel offsets are reals.
- Reading date text is an oracle `parse: string -> Option<int>`. It is passed
  to the transformers and the realtime handler.
- `Date.now()` becomes a parameter `now`.
- The network results become parameters: `FetchResult`, `Fetch<T>`. The auth
  backend is a stand-in in the source that always answers after a timer, so
  the model answers at once.
- Class methods change state and are specified by pure functions. Examples:
  `Counter.Increment` by `Incremented`, `PackagesState.HandleChange` by
  `ApplyChange`, `AuthProvider.SaveTokens` by `Saved`.
- `PackagesState`, `Counter`, `OrderAmountInput` and `AuthProvider` have a
  `Valid()` invariant that their constructors establish. Their public
  operations keep it. Exceptions:
  - `AuthProvider.SaveTokens` and `ClearTokens` are the store helpers. They
    neither need nor keep it. `ClearTokens` breaks it while a user is signed
    in, and `Logout` restores it by clearing the user.
  - For `PanGesture`, only the constructor and `OnEnd` mention it; `OnStart`
    and `OnUpdate` do not touch the index it constrains.
  - `PartnerScreenState` has no invariant.

Where the app's intended behaviour and its code differ, the model
follows the code:

- `fromPartnerDto` reads `workStartAt` / `workEndAt` with a date library and
  gives null for invalid text. There is no operating-hours JSON and no
  09:00-22:00 fallback.
- `verifyOtp` never checks the code, and never fails.
- Refresh never fails, so its clear-and-sign-out branch is not reachable.
- The object `fromPartnerDto` returns has no address, coordinates or
  description, and its working times may be null. The declared `Partner`
  type says otherwise; the model follows the object.

## Model

| member | source | states |
|---|---|---|
| `BusinessPackages.InsertPackage` | entities/food-package/hooks/use-business-packages.ts:52-65 | INSERT grows the list by one exactly when the package is admitted, puts it at index 0, and keeps the previous list whole after it |
| `BusinessPackages.InsertAlwaysWhenIncludingUnavailable` | entities/food-package/hooks/use-business-packages.ts:50-64 | with `includeUnavailable`, an INSERT always prepends the transformed row |
| `BusinessPackages.InsertGuard` | entities/food-package/hooks/use-business-packages.ts:53-65 | `OnSaleAt`/`Admitted`: without `includeUnavailable`, the list changes iff stock > 0, `sold_out` is not true, both bounds are set, both parse, and start <= now <= end; if it changes, the row was prepended |
| `BusinessPackages.InsertKeepsDuplicates` | entities/food-package/hooks/use-business-packages.ts:64 | an INSERT of an id already listed adds a second entry with that id and keeps every old entry, shifted by one |
| `BusinessPackages.UpdateById` | entities/food-package/hooks/use-business-packages.ts:66-71 | UPDATE keeps the length; each entry with the id becomes the raw incoming row (not transformed); all others stay in place |
| `BusinessPackages.UpdateIdempotent` | entities/food-package/hooks/use-business-packages.ts:66-71 | replaying an UPDATE changes nothing more |
| `BusinessPackages.DeleteById` | entities/food-package/hooks/use-business-packages.ts:72-76 | an entry survives DELETE iff it was there and its id differs; the list never grows |
| `BusinessPackages.DeleteDistributes` | entities/food-package/hooks/use-business-packages.ts:72-76 | DELETE acts on each part of a list separately, so the survivors keep their relative order |
| `BusinessPackages.DeleteCount` | entities/food-package/hooks/use-business-packages.ts:72-76 | DELETE removes exactly the entries with the id: the length drops by their count, and none remain |
| `BusinessPackages.DeleteAbsentIsIdentity` | entities/food-package/hooks/use-business-packages.ts:72-76 | deleting an id nobody has leaves the list unchanged |
| `BusinessPackages.ApplyChange` | entities/food-package/hooks/use-business-packages.ts:52-76 | the realtime dispatch: INSERT is `InsertPackage` of the transformed row, UPDATE is `UpdateById` with the raw row, DELETE is `DeleteById` of the old id; each of those carries its full contract |
| `BusinessPackages.DeleteAfterUpdate` | entities/food-package/hooks/use-business-packages.ts:66-76 | an UPDATE followed by a DELETE of the same id ends where the DELETE alone would |
| `BusinessPackages.Entries` | entities/food-package/hooks/use-business-packages.ts:26-27 | a fetched list is stored element for element, in order |
| `BusinessPackages.PackagesState.constructor` | entities/food-package/hooks/use-business-packages.ts:13-16 | the hook starts with no packages, loading, no error, not refreshing |
| `BusinessPackages.PackagesState.StartFetch` | entities/food-package/hooks/use-business-packages.ts:23-24 | the fetch begins by clearing the error and raising `loading`, list untouched |
| `BusinessPackages.PackagesState.CompleteFetch` | entities/food-package/hooks/use-business-packages.ts:26-34 | success replaces the list; failure keeps it and sets the fixed message; both flags end false |
| `BusinessPackages.PackagesState.FetchPackages` | entities/food-package/hooks/use-business-packages.ts:21-35 | a whole fetch: on success new list and no error; on failure old list and the fixed message; `loading` and `refreshing` false |
| `BusinessPackages.PackagesState.BeginRefresh` | entities/food-package/hooks/use-business-packages.ts:89-91 | `refreshing` is raised before the fetch starts |
| `BusinessPackages.PackagesState.RefreshPackages` | entities/food-package/hooks/use-business-packages.ts:89-92 | a refresh ends like a fetch, with `refreshing` back to false |
| `BusinessPackages.PackagesState.ToggleShowUnavailable` | entities/food-package/hooks/use-business-packages.ts:94-105 | returns the negated option; replaces the list only on success; touches no flag |
| `BusinessPackages.PackagesState.HandleChange` | entities/food-package/hooks/use-business-packages.ts:49-77 | a realtime event applies `ApplyChange` to the list, keeping the error invariant |
| `Auth.StoredTokens` | providers/auth-provider.tsx:46-52 | tokens are read iff all three keys hold non-empty text; the read tokens are non-empty |
| `Auth.SaveThenRead` | providers/auth-provider.tsx:34-38 | `Saved` then `StoredTokens`: saved tokens read back unchanged, expiry included via `String`/`Number`, unless a token is empty; then nothing reads back |
| `Auth.IssuedTokensReadBack` | providers/auth-provider.tsx:83-98 | `IssuedTokens(now)` read back from the store and are still valid at `now` by `Before` (`Date.now() < expiresAt`) |
| `Auth.ClearRemovesExactlyTokens` | providers/auth-provider.tsx:40-44 | `Cleared`: clearing deletes exactly the three token keys, keeps every other entry, and leaves no readable tokens |
| `Auth.AuthProvider.constructor` | providers/auth-provider.tsx:55-56 | the provider mounts with no user and `loading` true over the device's store |
| `Auth.AuthProvider.SaveTokens` | providers/auth-provider.tsx:34-38 | three writes leave the store equal to `Saved(old store, t)` |
| `Auth.AuthProvider.ClearTokens` | providers/auth-provider.tsx:40-44 | three deletes leave the store equal to `Cleared(old store)` |
| `Auth.AuthProvider.RefreshSession` | providers/auth-provider.tsx:80-107 | saves tokens expiring at now + 3600000, sets the placeholder user, and the tokens read back |
| `Auth.AuthProvider.RestoreSession` | providers/auth-provider.tsx:59-78 | no tokens: store and user unchanged; live tokens: placeholder user, store unchanged; expired or NaN expiry: refreshed tokens and user; `loading` false in every case |
| `Auth.AuthProvider.RequestOtp` | providers/auth-provider.tsx:109-120 | changes neither the store nor the user |
| `Auth.AuthProvider.VerifyOtp` | providers/auth-provider.tsx:122-151 | accepts any code; stores tokens expiring at now + 3600000 and the placeholder user |
| `Auth.AuthProvider.Logout` | providers/auth-provider.tsx:153-156 | no tokens read back and the user is null |
| `OrderCounter.Incremented` | entities/partner/components/order-counter/index.tsx:20-23 | the count stays put iff `max` is truthy and reached, and otherwise rises by one |
| `OrderCounter.Decremented` | entities/partner/components/order-counter/index.tsx:25-28 | the count stays put iff it equals `min`, and otherwise falls by one |
| `OrderCounter.NeverBelowMin` | entities/partner/components/order-counter/index.tsx:14-28 | `Run` over a press sequence: starting at or above `min`, no press sequence takes the count below `min` |
| `OrderCounter.NeverAboveMax` | entities/partner/components/order-counter/index.tsx:14-23 | with a truthy `max` and `min <= count <= max`, no press sequence passes `max` |
| `OrderCounter.UnboundedAbove` | entities/partner/components/order-counter/index.tsx:20-23 | with `max` 0 or absent, or below the count, n plus presses add n |
| `OrderCounter.Counter.constructor` | entities/partner/components/order-counter/index.tsx:13-18 | the count starts at `min` (default 0), and that first value is reported |
| `OrderCounter.Counter.Increment` | entities/partner/components/order-counter/index.tsx:16-23 | count becomes `Incremented`; a new value is appended to what `onChange` received; invariant kept |
| `OrderCounter.Counter.Decrement` | entities/partner/components/order-counter/index.tsx:16-28 | count becomes `Decremented`; a new value is appended to what `onChange` received; invariant kept |
| `OrderCounter.Counter.GreyMeansNoOp` | entities/partner/components/order-counter/index.tsx:36-48 | `MinusGrey`/`PlusGrey`: the minus button is grey iff pressing it is a no-op; with a truthy `max`, the same holds for plus |
| `OrderAmount.TextOr` | entities/partner/components/order-amount-input/index.tsx:36-40 | JavaScript's logical or on text, `x` or else `fallback`: the value when present and non-empty, else the fallback |
| `OrderAmount.UnitPrice` | entities/partner/components/order-amount-input/index.tsx:29 | the option's price when an option is given with a non-zero price, otherwise the partner's price |
| `OrderAmount.Proceed` | entities/partner/components/order-amount-input/index.tsx:31-43 | path `/partners/{id}/checkout`; the option's id, name and description, each replaced by "standard", "Стандартный" or "" when there is no option or the field is empty; price and amount text read back as the numbers |
| `OrderAmount.CheckoutPathCarriesId` | entities/partner/components/order-amount-input/index.tsx:34 | `CheckoutPath`: the partner id sits whole between the fixed prefix and suffix of the path |
| `OrderAmount.NoStockNoBound` | entities/partner/components/order-amount-input/index.tsx:49-56 | with 0 or fewer boxes available the counter is unbounded above (the pay button is disabled then) |
| `OrderAmount.OrderAmountInput.constructor` | entities/partner/components/order-amount-input/index.tsx:27-53 | the amount starts at 1 and mirrors a counter bounded by 1 and the available boxes |
| `OrderAmount.OrderAmountInput.PressPlus` | entities/partner/components/order-amount-input/index.tsx:49-53 | the counter's new value becomes the amount |
| `OrderAmount.OrderAmountInput.PressMinus` | entities/partner/components/order-amount-input/index.tsx:49-53 | the counter's new value becomes the amount; the amount never drops below 1 |
| `OrderAmount.OrderAmountInput.AmountInRange` | entities/partner/components/order-amount-input/index.tsx:49-58 | `DisplayedTotal` and `PayDisabled` (`totalBoxCount <= 0`): amount >= 1; while the pay button is enabled, amount <= available boxes; the total `amount * price` lies between one and all available boxes' worth |
| `Carousel.Clamp` | components/carousel.tsx:17-20 | result within `[lo, hi]` when `lo <= hi`; equal to `v` inside; `lo` below; `hi` above; `hi` when `hi < lo` |
| `Carousel.NextIndex` | components/carousel.tsx:55-68 | moves by at most one; keeps the index in range; a right swipe above 0 always steps back (it is tested first); otherwise a left swipe below the last index steps forward; steps only on a matching swipe; no wrap at either end |
| `Carousel.DragOffset` | components/carousel.tsx:44-53 | away from the edges the offset is the start offset plus the translation |
| `Carousel.SnapStep` | components/carousel.tsx:25-28 | `SnapOffset` and `ItemWidth`: neighbouring snap offsets differ by `ITEM_WIDTH = width - 2*16 + 8` |
| `Carousel.SnapOffsetsDistinct` | components/carousel.tsx:25-28 | with a positive item width, distinct indices snap to distinct offsets |
| `Carousel.PanGesture.constructor` | components/carousel.tsx:30-32 | offset 16, remembered offset 0, index 0 |
| `Carousel.PanGesture.OnStart` | components/carousel.tsx:41-43 | copies `translateX` into `prevTranslateX` |
| `Carousel.PanGesture.OnUpdate` | components/carousel.tsx:44-53 | `translateX` becomes `DragOffset`: damped by 0.3 past an edge, otherwise the start offset plus the translation |
| `Carousel.PanGesture.OnEnd` | components/carousel.tsx:54-81 | index becomes `NextIndex` (at most one step, still in range); offset settles at `16 - ITEM_WIDTH * index` |
| `PartnerCard.AvailabilityStatus` | entities/partner/components/partner-card/index.tsx:32-40 | sold-out iff count <= 0, low iff 0 < count <= 3, available iff count > 3 |
| `PartnerCard.MoreBoxesNeverWorse` | entities/partner/components/partner-card/index.tsx:35-40 | more boxes never give a worse status (sold-out < low < available), and the low band spans at most three counts |
| `PartnerCard.NaNHourNeverOpen` | entities/partner/components/partner-card/index.tsx:26-29 | `IsOpen` is false when either working hour is NaN (an Invalid Date) |
| `PartnerCard.NeverOpenWhenEndNotAfterStart` | entities/partner/components/partner-card/index.tsx:26-29 | `IsOpen` (`start <= hour < end`): if the end hour is not after the start hour, the partner is never open |
| `PartnerCard.BadgeShowsCount` | entities/partner/components/partner-card/index.tsx:100 | `BadgeText`: the badge reads "Нет" iff sold out; otherwise its text reads back as the box count |
| `PartnerCard.CaptionIffAvailable` | entities/partner/components/partner-card/index.tsx:160 | `Caption`: "Доступно" iff more than 3 boxes; low and sold-out both read "Нет боксов" |
| `PartnerCard.LabelIffOpen` | entities/partner/components/partner-card/index.tsx:29-52 | `StatusLabel`: the label is "Открыто" iff `IsOpen`, else "Закрыто" |
| `Discount.DiscountPercentage` | entities/food-package/components/food-package-card.tsx:13-15 | for `o != 0`, the integer nearest `100(o-d)/o` with ties upward, stated as bounds; for `o == 0`: NaN, +Infinity or -Infinity by the sign of `d` |
| `Discount.EqualPricesNoDiscount` | entities/food-package/components/food-package-card.tsx:14-29 | equal prices give 0 and no badge |
| `Discount.FreeIsHundred` | entities/food-package/components/food-package-card.tsx:14 | `d = 0` gives 100 |
| `Discount.AtMostHundred` | entities/food-package/components/food-package-card.tsx:14 | `d >= 0` gives at most 100 |
| `Discount.PricierNoBadge` | entities/food-package/components/food-package-card.tsx:14-29 | `d > o > 0` gives at most 0 and no badge |
| `Discount.LowerPriceBiggerDiscount` | entities/food-package/components/food-package-card.tsx:14 | for fixed `o > 0`, a lower `d` never gives a smaller percentage |
| `Discount.TenToSeven` | entities/food-package/components/food-package-card.tsx:8-35 | `o = 10, d = 7` gives 30 and the badge shows |
| `Discount.BadgeIffCheaper` | entities/food-package/components/food-package-card.tsx:29-35 | `ShowsBadge` (`percentage > 0`): for `o > 0` the badge shows iff `200(o-d) >= o`, i.e. iff the percentage is positive |
| `PartnerScreen.CardsOf` | entities/partner/screens/partner-screen/partner-screen.tsx:144-157 | one card per package, in order, with the shared discount formula and a badge iff the percentage is positive |
| `PartnerScreen.Render` | entities/partner/screens/partner-screen/partner-screen.tsx:62-144 | spinner iff loading, whatever the error; then the error text or "Partner not found"; then details, with the empty-list message iff there are no packages |
| `PartnerScreen.PartnerScreenState.constructor` | entities/partner/screens/partner-screen/partner-screen.tsx:22-25 | no partner, no packages, loading, no error |
| `PartnerScreen.PartnerScreenState.LoadPartnerData` | entities/partner/screens/partner-screen/partner-screen.tsx:27-42 | a missing id sets "Partner ID is missing", stops loading and fetches nothing; two resolved fetches store both results and stop loading; a rejection changes nothing, so the spinner stays |
| `FoodPackages.FromFoodPackageDto` | entities/food-package/transformers/from-food-package-dto.ts:4-26 | total; copies id, texts, prices, quantities and status; each of the six dates is null iff its column is falsy, else `new Date` of the column's text; `sold_out` true iff the row says true |
| `FoodPackages.FoodPackageRoundTrip` | entities/food-package/transformers/from-food-package-dto.ts:5-25 | every package is recovered from the row it would be sent as, so no field is lost or altered |
| `Partners.FromPartnerDto` | entities/partner/transformers/from-partner-dto.ts:5-21 | total; copies the eight plain fields; each working time is the parse when valid, else null |
| `Partners.PartnerRoundTrip` | entities/partner/transformers/from-partner-dto.ts:5-21 | every result record is recovered from a row that carries it, whatever the dropped fields hold |
| `Partners.DroppedFieldsIgnored` | entities/partner/transformers/from-partner-dto.ts:9-20 | address, coordinates and description never reach the result |
| `Partners.WorkTimesIndependent` | entities/partner/transformers/from-partner-dto.ts:6-13 | the end time does not depend on the start string |
| `TimeFormat.SingleDigitPadded` | utils/time.ts:2 | 0..9 becomes "0" followed by the digit |
| `TimeFormat.TwoDigitsKept` | utils/time.ts:2 | 10..99 becomes its two digits |
| `TimeFormat.FixedShape` | utils/time.ts:1-2 | `FormatTime` (built from `Part`): for hours and minutes in 0..99, the text has length 5, ':' at index 2, and digits elsewhere |
| `TimeFormat.NeverTruncated` | utils/time.ts:2 | padding only adds characters; for hours >= 10 the text starts with all of their digits |
| `TimeFormat.PadStart2` | utils/time.ts:2 | `padStart(2, "0")`: text of two or more characters is kept whole; shorter text is left-filled with '0' to length 2 |
| `TimeFormat.IndexOfColon` | utils/time.ts:2 | the first ':' of a text, if any: all text before it is colon-free |
| `TimeFormat.NoColonInPart` | utils/time.ts:2 | a padded part of `formatTime` never contains ':' |
| `TimeFormat.PartRoundTrip` | utils/time.ts:2 | a padded part reads back with `Number` as the integer it was written from, the leading '0' included |
| `TimeFormat.SplitAtFirstColon` | utils/time.ts:2 | text built as a colon-free left part, ':' and a right part splits back into those two parts |
| `TimeFormat.FormatParseRoundTrip` | utils/time.ts:1-2 | `FormatTime` then splitting at ':' and reading both sides with `Number` gives back the hours and the minutes, for every integer pair |
| `Decimal.IntToString` | providers/auth-provider.tsx:37 | `String(n)` of an integer: non-empty; digits only for n >= 0; '-' then digits for n < 0 |
| `Decimal.ParseNumber` | providers/auth-provider.tsx:51 | `Number(s)` of integer text: "" reads as 0; digit text reads as its value; any other readable text ends in a digit |
| `Decimal.IntRoundTrip` | providers/auth-provider.tsx:37-51 | `Number(String(n))` is `n` for every integer |
| `Decimal.NatRoundTrip` | utils/time.ts:2 | the decimal text of a natural number reads back as that number |
| `Decimal.NumberRoundTrip` | providers/auth-provider.tsx:37-51 | `Number(String(x))` is `x` for every stored number, NaN included |

## Left out

- The backend is not modelled. This covers the backend client, its RPCs and
  table queries, and the realtime channel's subscribe and teardown
  (use-business-packages.ts:41-49 and 78-86). Its results are parameters.
  Fetches and realtime events arrive one at a time, in an order the caller
  chooses; concurrent interleavings are not modelled.
- The secure store's own failures are not modelled. The catch branch of
  `refreshSession`, which clears tokens and signs out, is therefore not
  modelled. Nothing in the model can fail there.
- Timer delays are not modelled: the stand-in endpoints answer at once, and
  `Date.now()` is the same `now` before and after them.
- `Promise.all` in `loadPartnerData` runs two fetches in parallel. The model
  takes both results together.
- Navigation calls, `console` logging, `handleReserve` and the random review
  count of the partner screen are not modelled. `proceed` returns its route
  instead of pushing it.
- Number formatting is not modelled: `formatNumber`, `toFixed`,
  `toLocaleTimeString` and date-fns `format`. These are locale libraries.
  `DisplayedTotal` is the number before formatting.
- The carousel's `withTiming` animation is reduced to the offset it settles
  at. The library carousel it renders beside is not modelled. A change of
  `data.length` between renders is not modelled: the length is fixed per
  gesture object.
- `PartnerCard` takes the hours that `Date.getHours()` returns; time zones
  are not modelled.
- `PartnerCard.LabelIffOpen`: for a NaN working hour (an Invalid Date) the
  model gives the label "Закрыто". The card never draws that label: the
  date-fns `format` calls at partner-card/index.tsx:43-44 run first on the
  same dates and throw a RangeError on an Invalid Date. The throw is not
  modelled.
- `PartnerScreen.Render`: returns the details view for a partner whose
  `workStartAt` or `workEndAt` is null, which `fromPartnerDto` gives for
  invalid text. The screen throws a TypeError there instead: it calls
  `toLocaleTimeString` on both working times at partner-screen.tsx:121. The
  throw is not modelled.
- `PartnerCard.IsOpen`: `new Date(null).getHours()` is the hour of the epoch
  in the device's time zone, not NaN. A null working time, which
  `fromPartnerDto` gives for invalid text, is therefore not represented; the
  model's NaN hour stands for an Invalid Date only.
- Props are fixed when the component mounts. `OrderCounter` reads `min` and
  `max` on every render, and `OrderAmountInput` passes
  `max={partner.totalBoxCount}`. In the model both are `const` fields of the
  counter. Nothing models a `max` that drops below the count after mount.
  Then plus would never stop again, the case `OrderCounter.NeverAboveMax`
  excludes by its precondition.
- `PartnerCard.AvailabilityStatus`: takes the box count as an integer. The
  card reads `partner.boxesInfo.total_available` (partner-card/index.tsx:32),
  but `boxesInfo` is not a field of the declared `Partner`, and
  `fromPartnerDto` does not produce it. Three cases are not covered:
  - An undefined count fails both `<= 0` and `<= 3`, so the status is
    'available': the caption reads "Доступно" and the badge is empty.
  - A null count classifies as sold-out.
  - A missing `boxesInfo` throws.
- `OrderAmount.Offer`: `totalBoxCount` and `price` are not fields of the
  declared `Partner`, and `fromPartnerDto` does not produce `totalBoxCount`.
  When it is undefined, `undefined <= 0` is false. The pay button is then
  enabled and the counter has no upper bound. The model's integer
  `totalBoxCount` cannot be undefined, so that case is not covered.
- `fetchPartnerById` is imported by the partner screen
  (partner-screen.tsx:15), but entities/partner/api.ts does not export
  it. For a truthy id, the rejected-fetch branch of `LoadPartnerData` (the
  spinner stays) is the only one that code can reach. The model still
  covers both fetch outcomes.
- `Discount.DiscountPercentage`: computed over exact rationals. The source
  rounds a double, which can differ at exact .5 cases.
- `Decimal.IntToString`: does not model the exponent form JavaScript uses for
  magnitudes of 10^21 or more, nor precision loss above 2^53.
- `Decimal.ParseNumber`: only the integer forms are read. `Number` would also
  accept surrounding whitespace, fractions, exponents, hex and "Infinity";
  the model reads those as NaN.
- The food package's `FoodPackageDto` type file is not part of this model.
  Its shape is taken from the fields `fromFoodPackageDto` reads; nullable
  columns are options.
- `status` is kept as text. The status constants file is not part of this
  model.
