# WasteWise core in Dafny

WasteWise is a household waste-tracking web application. This project models its core:

- the waste-to-energy calculator (`lib/calculations.ts`);
- the nudge generator of `GET /api/nudges`;
- the API route handlers that validate requests and append to the hosted database:
  - calculations
  - eco-points
  - eco-store
  - events
  - community locations
  - AI coach
- the client-side logic of three pages:
  - the community-locations filter and type labels;
  - the eco-store category list, filter and redeem button;
  - the three-step food-donation wizard.

Modules:

- `JsMath`: `Math.round` on reals. It rounds half toward +infinity (`floor(x + 0.5)`). `Round1` is `Math.round(10x)/10`.
- `Seqs`: generic sequence tools. `Filter` comes with a subsequence proof, plus `Sum`, `Distinct` (the `Array.from(new Set(...))` idiom) and an insertion `SortBy`.
- `Json`, `Http`: request bodies and responses.
  - A body is a JSON object, or `Unparsable` when `req.json()` throws. A non-Zod exception is caught as 500.
  - The `Truthy` predicate gives the JavaScript truthiness of a field.
  - `ZodNumber` and `ZodString` model `z.number()` and `z.string()`.
- `Store`: the database tables as sequences of rows.
  - `Available` is the eco-points balance: the user's `eco_points` minus the user's `user_eco_purchases`.
  - Each insert's success is a boolean parameter of the handler that makes it.
- `Calculations`, `Nudges`: the two pure computations.
- `CalculationsRoute`, `EcoPointsRoute`, `EcoStoreRoute`, `EventsRoute`, `LocationsRoute`, `CoachRoute`: one module per route file. Each handler returns its response together with the tables after it ran.
- `Ledger`: the three handlers that write the eco-points ledger, run as a state machine. `RunKeepsSolvent` proves that no balance goes negative, provided every grant is non-negative.
- `MapsPage`, `EcoStorePage`, `DonationForm`: the page logic.

Behaviour of the code that the model keeps and proves:

- The calculator's electricity figure is already a monthly figure. The `monthlyProjection.electricity` field repeats it unrounded.
- `performCalculations(2, 1, 0.5, 1.5)` gives electricity 0.1 kWh a month and savings ₹1 (`Calculations.WorkedExample`).
- `Math.round` rounds half toward +infinity (`Math.round(-2.5)` is -2), so `Round` is `floor(x + 0.5)`.
- `POST /api/calculations` never checks the result of its `eco_points` insert. It answers 201 whether or not the points were recorded.
- `POST /api/ecopoints` rejects only falsy `points`. A negative grant is accepted and can push a balance below zero (`EcoPointsRoute.NegativeGrantAccepted`).
- `POST /api/ecostore` trusts the client's `pointsToSpend`. A negative price is accepted and raises the balance (`EcoStoreRoute.NegativePriceRaisesBalance`).
- `POST /api/events` accepts a quantity of 0. The donation form does not let one through (`DonationForm.ZeroQuantityStoppedByFormOnly`).
- `POST /api/locations` requires no login.
- `POST /api/locations` inserts without `.select()`, so its 201 body carries no location.
- The eco-store page keeps whatever `/api/ecopoints` answered. When that is an error body, the header shows 0 points and every product in stock offers "Redeem" (`EcoStorePage.SignedOutRedeemOffered`).
- The donation form's Back button stays usable while a request is pending. A success then resets the form, discarding edits made in the meantime (`DonationForm.LateSuccessDiscardsEdits`). The wizard (`DonationForm.Apply`) uses the corrected submit guard of the finding below.
- The maps page filters a fixed list of five entries and ignores what `/api/locations` returns. The model filters any given list.

## Model

| member | source | states |
|---|---|---|
| JsMath.Round | lib/calculations.ts:90 | `Math.round` returns the integer within half a unit of its argument, with ties going up. |
| JsMath.Round1 | lib/calculations.ts:88 | Rounding to one decimal gives a whole number of tenths within 0.05 of the value, the window being closed below and open above. |
| JsMath.Round1Unique | lib/calculations.ts:88 | Exactly one tenth lies in that window, so it is the result; a value exactly halfway between two tenths goes to the upper one. |
| JsMath.RoundMonotone | lib/calculations.ts:90 | Rounding never reverses the order of two values. |
| JsMath.Round1Monotone | lib/calculations.ts:88 | Rounding to one decimal never reverses the order of two values. |
| Calculations.PerformCalculations | lib/calculations.ts:26-100 | Closed forms of all five outputs and the projection in kitchen and garden kg. Biogas is 0.4 and 0.3 L/kg, electricity is 2 kWh/m³ over 30 days, savings are 8 INR per kWh, CO₂ is 0.3 kg/kg/day over 365 days, fertilizer is 0.15 kg/kg/day over 30 days, each rounded as written. The projected electricity is unrounded, and the projected savings equal the savings. |
| Calculations.PlasticAndPaperIgnored | lib/calculations.ts:74-85 | Plastic and paper have no effect on any output. |
| Calculations.ZeroInZeroOut | lib/calculations.ts:74-100 | No organic waste yields all-zero results. |
| Calculations.Monotone | lib/calculations.ts:26-100 | More kitchen or garden waste never lowers any output. |
| Calculations.NonNegative | lib/calculations.ts:26-100 | Non-negative inputs give outputs no lower than the all-zero result. |
| Calculations.WorkedExample | lib/calculations.ts:74-100 | For (2, 1, 0.5, 1.5) the result is biogas 1.3, electricity 0.1, savings 1, CO₂ 383.3, fertilizer 15.8, with projection 37.5, 0.075, 1 and 31.5. |
| Nudges.GenerateNudges | app/api/nudges/route.ts:36-72 | No logs give the single info nudge. Otherwise the output is success (iff the average is under 3, carrying the average), then warning (iff plastic exceeds 30% of the total), then always a final tip of round(avg·240) rupees, in that fixed order. |
| Nudges.MissingCountsAsZero | app/api/nudges/route.ts:48-50 | A missing `total_kg` or `plastic_kg` behaves exactly like 0. |
| Nudges.LowDailyWasteIsPraised | app/api/nudges/route.ts:49-57 | If every day stays at most some bound below 3 kg, the success nudge appears. |
| Nudges.PlasticShareBoundedNoWarning | app/api/nudges/route.ts:59-64 | If every log's plastic is within 30% of its total, no warning appears. |
| CalculationsRoute.ParseSample | app/api/calculations/route.ts:6-11 | The schema accepts a body iff each of the four fields is a number in [0, max], with max 10, 5, 3 and 5, and it yields those numbers. |
| CalculationsRoute.Award | app/api/calculations/route.ts:49-51 | The award is the integer within half a point of 10 points per kg of all four categories. |
| CalculationsRoute.AwardRange | app/api/calculations/route.ts:49-51 | A validated sample earns between 0 and 230 points. |
| CalculationsRoute.Post | app/api/calculations/route.ts:13-78 | Outcomes: 401 without a user, 500 for a non-JSON body, 400 for a schema failure, 500 when the calculation insert fails, all with the tables unchanged. Otherwise 201 with the results and award. The calculation row is appended, and the points row only when that insert succeeded. |
| CalculationsRoute.PostCredits | app/api/calculations/route.ts:49-60 | The request raises the caller's balance by exactly the award reported, only when both inserts succeeded, and touches no other balance. |
| Store.TotalEarned | app/api/ecopoints/route.ts:14-21 | The sum of `points` over the user's `eco_points` rows, 0 when there are none; characterised by `Store.CreditRow` and `Store.NoRowsNoBalance`. |
| Store.TotalSpent | app/api/ecopoints/route.ts:24-31 | The sum of `points_spent` over the user's purchases, 0 when there are none; characterised by `Store.DebitRow` and `Store.NoRowsNoBalance`. |
| Store.Available | app/api/ecopoints/route.ts:32 | Earned minus spent, with no clamping at 0; `EcoPointsRoute.NegativeGrantAccepted` shows it can go negative. |
| EcoPointsRoute.HandleGet | app/api/ecopoints/route.ts:4-52 | 401 iff no user. Otherwise `totalEarned` and `totalSpent` are the sums over that user's rows, and the available points are their difference. |
| EcoPointsRoute.GrantRow | app/api/ecopoints/route.ts:70-77 | The appended row holds the caller, `points` and `activity`; `activityType` is kept when truthy and otherwise becomes "general", so the stored type is never falsy. |
| EcoPointsRoute.HandlePost | app/api/ecopoints/route.ts:54-86 | 401 without a user; 400 unless `points` and `activity` are both truthy. Success iff `activity` is truthy, `points` is a non-zero number and the insert succeeds; exactly one row is appended on success. |
| EcoPointsRoute.PostCredits | app/api/ecopoints/route.ts:63-77 | A granted request changes the caller's balance by exactly `points` and no one else's. |
| EcoPointsRoute.NegativeGrantAccepted | app/api/ecopoints/route.ts:65-67 | `points: -5` is accepted and leaves a fresh user at -5. |
| EcoStoreRoute.HandleGet | app/api/ecostore/route.ts:4-21 | The listing holds exactly the in-stock products, each as often as in the catalogue, ordered by ascending cost. |
| EcoStoreRoute.HandlePost | app/api/ecostore/route.ts:23-75 | 401 without a user, and 400 when the balance is below the price. Success iff the balance covers the price and the insert succeeds, appending exactly the purchase row. |
| EcoStoreRoute.PostDebits | app/api/ecostore/route.ts:42-66 | A purchase lowers the buyer's balance by its price and no one else's, and leaves the buyer at or above 0. |
| EcoStoreRoute.SameBalanceAsPointsEndpoint | app/api/ecostore/route.ts:34-57 | A purchase is admitted iff the balance `GET /api/ecopoints` would report covers the price. |
| EcoStoreRoute.NegativePriceRaisesBalance | app/api/ecostore/route.ts:55-66 | A price of -10 is admitted and raises the balance by 10. |
| Ledger.StepKeepsSolvent | app/api/ecostore/route.ts:55-57 | One request of any of the three writing handlers keeps every balance non-negative, given a non-negative grant. |
| Ledger.RunKeepsSolvent | app/api/ecostore/route.ts:55-57 | Any sequence of such requests keeps every balance non-negative. |
| Ledger.EmptyLedgerStaysSolvent | app/api/ecopoints/route.ts:21-32 | Starting from empty tables, no balance is ever negative. |
| Store.CreditRow | app/api/ecopoints/route.ts:13-32 | Appending an `eco_points` row changes only its owner's balance, by its points. |
| Store.DebitRow | app/api/ecopoints/route.ts:23-32 | Appending a purchase row lowers only its owner's balance, by the points spent. |
| Store.NoRowsNoBalance | app/api/ecopoints/route.ts:21-32 | A user without rows has earned, spent and available all 0 (the `\|\| 0` default). |
| EventsRoute.ParseEvent | app/api/events/route.ts:5-11 | The schema accepts iff the name is a non-empty string, the date a string, the quantity a number ≥ 0, and latitude and longitude are numbers. |
| EventsRoute.HandlePost | app/api/events/route.ts:13-51 | Outcomes: 401 without a user, 500 for a non-JSON body, 400 for a schema failure, 500 when the insert fails. Otherwise 201 with the inserted row, which is appended. |
| EventsRoute.ZeroQuantityAccepted | app/api/events/route.ts:8 | A quantity of 0 passes the schema. |
| LocationsRoute.ParseLocation | app/api/locations/route.ts:5-12 | The schema accepts iff name and address are non-empty strings, the type is one of the three kinds, contact is absent or a string, and the coordinates are numbers. |
| LocationsRoute.HandlePost | app/api/locations/route.ts:66-94 | No login is needed. 500 for a non-JSON body, 400 for a schema failure, 500 when the insert fails, otherwise 201 with the parsed row appended; the reply carries no row. |
| LocationsRoute.Fetched | app/api/locations/route.ts:23-29 | A non-empty `type` keeps exactly the rows of that type, each as often as stored; otherwise every row is kept. |
| LocationsRoute.HandleGet | app/api/locations/route.ts:14-64 | With both coordinates, a row is listed iff it passes the type filter and lies within the radius, each as often as fetched. The radius defaults to 10 km. Without both coordinates the list is the type-filtered rows. |
| LocationsRoute.GetIsSubsequence | app/api/locations/route.ts:35-57 | The answer keeps the stored order and only drops rows. |
| LocationsRoute.DefaultRadius | app/api/locations/route.ts:21 | A missing radius behaves like `radius=10`. |
| CoachRoute.Recent | app/api/coach/route.ts:22-27 | Only the seven newest logs are read. |
| CoachRoute.AvgDailyWaste | app/api/coach/route.ts:32-33 | The average times the number of recent logs is their total, and it is 0 with no logs. |
| CoachRoute.OnlySevenMostRecentCount | app/api/coach/route.ts:22-33 | Logs older than the seventh newest do not affect the average. |
| CoachRoute.AverageWithinDailyRange | app/api/coach/route.ts:32-33 | The average lies between the smallest and largest recent daily total. |
| CoachRoute.HouseholdSize | app/api/coach/route.ts:41 | The household size in the prompt is never 0: a missing or zero size reads as 1, and any other size is kept. |
| CoachRoute.HandlePost | app/api/coach/route.ts:6-80 | 401 without a user, 500 for a non-JSON body, 400 unless `message` is a non-empty string. Success iff the generator, given the message and the context of average, household size and log count, answers; the reply is exactly its text. |
| CoachRoute.RejectedBeforeReading | app/api/coach/route.ts:11-19 | A request refused for its login or message gets the same answer whatever the logs, profile and generator would say. |
| CoachRoute.GeneratorSeesOnlyRecentLogs | app/api/coach/route.ts:22-61 | Two log histories that agree on the seven newest logs give the same answer to every request. |
| MapsPage.SetToggle | app/maps/page.tsx:189-196 | A checkbox change sets its own type and leaves the other two as they were. |
| MapsPage.Lower | app/maps/page.tsx:119-120 | Lower-casing turns each capital into its small letter, leaves every other character alone, and leaves no capital behind; a string without capitals is unchanged. |
| MapsPage.LowerIdempotent | app/maps/page.tsx:119-120 | Lower-casing twice is lower-casing once. |
| MapsPage.FilteredLocations | app/maps/page.tsx:116-122 | A location is listed iff its type is ticked and its lower-cased name or address contains the lower-cased query, as often as it occurs in the input. |
| MapsPage.FilteredIsSubsequence | app/maps/page.tsx:116-122 | The filtered list keeps the original order. |
| MapsPage.InitialShowsAll | app/maps/page.tsx:24-29 | With every type ticked and an empty search, every location is listed. |
| MapsPage.UntickingNeverAdds | app/maps/page.tsx:116-122 | Unticking a type yields the old list filtered again, a subsequence of it. |
| MapsPage.TypeColor | app/maps/page.tsx:124-135 | A type gets the grey colour iff it is none of the three keys. |
| MapsPage.TypeLabel | app/maps/page.tsx:137-148 | A type gets the "Unknown" label iff it is none of the three keys. |
| MapsPage.LabelsAndColoursAgree | app/maps/page.tsx:124-148 | A type has the "Unknown" label iff it has the grey colour iff it is not one of the three keys. The three keys have pairwise distinct labels and colours. |
| EcoStorePage.Categories | app/ecostore/page.tsx:48 | Each category appears exactly once, and exactly the categories of some product, in order of first appearance. |
| EcoStorePage.FilteredProducts | app/ecostore/page.tsx:49 | No category or an empty one shows all products. Otherwise exactly those of the selected category are shown, each as often as in the list. |
| EcoStorePage.FilteredProductsIsSubsequence | app/ecostore/page.tsx:49 | The shown products keep the catalogue order. |
| EcoStorePage.Loaded | app/ecostore/page.tsx:31-37 | After the fetch the page holds a balance iff `/api/ecopoints` answered 200, and then exactly its `availablePoints`; an error body holds no balance. |
| EcoStorePage.RedeemDisabled | app/ecostore/page.tsx:151 | The button is disabled before the balance arrives, when the balance is below the cost, or when the stock is 0; a body without a balance is never short. |
| EcoStorePage.RedeemLabel | app/ecostore/page.tsx:154-158 | "Not Enough Points" when short, else "Out of Stock" at stock 0, else "Redeem"; related to the button by `EcoStorePage.LabelMatchesButton`. |
| EcoStorePage.LabelMatchesButton | app/ecostore/page.tsx:151-158 | The label is "Redeem" iff the button is enabled. A short balance shows "Not Enough Points" whatever the stock. |
| EcoStorePage.ListedProductsAreInStock | app/ecostore/page.tsx:156-157 | A product the store lists never shows "Out of Stock". |
| EcoStorePage.EnabledRedeemIsAccepted | app/ecostore/page.tsx:149-151 | An enabled button, showing the balance `GET /api/ecopoints` reports and still current, is a purchase the store accepts. |
| EcoStorePage.SignedOutRedeemOffered | app/ecostore/page.tsx:86-158 | Signed out, the header shows 0 points yet every product in stock offers "Redeem"; pressing it is refused with 401. |
| DonationForm.Next | components/events/donation-form.tsx:149-200 | "Next Step" moves step 1 to 2 and 2 to 3; paired with `Back` by `DonationForm.NextAndBackAreInverse`. |
| DonationForm.Back | components/events/donation-form.tsx:197-232 | "Back" moves step 2 to 1 and 3 to 2; paired with `Next` by `DonationForm.NextAndBackAreInverse`. |
| DonationForm.NextAndBackAreInverse | components/events/donation-form.tsx:149-232 | Back undoes Next and Next undoes Back on the steps where the buttons exist, and both stay within steps 1 to 3. |
| DonationForm.HandleSubmitAsWritten | components/events/donation-form.tsx:44-86 | With the guard as written: a failed guard sends nothing and changes nothing. Otherwise the body is sent and loading ends. Success resets the form to step 1; any other outcome keeps data and step. |
| DonationForm.NaNQuantityGetsThrough | components/events/donation-form.tsx:45 | An emptied quantity field passes the guard and sends a body the server rejects. |
| DonationForm.HandleSubmit | components/events/donation-form.tsx:44-86 | Same as `HandleSubmitAsWritten`, with the guard requiring a positive number. |
| DonationForm.GuardsAgreeOnNumbers | components/events/donation-form.tsx:45 | The two guards differ only on a NaN quantity. |
| DonationForm.SentRequestsPassSchema | components/events/donation-form.tsx:52-61 | Every request the form sends passes `EventSchema`, which yields the form's own values. |
| DonationForm.ZeroQuantityStoppedByFormOnly | components/events/donation-form.tsx:45 | A zero quantity is stopped by the form though the server would accept it. |
| DonationForm.Apply | components/events/donation-form.tsx:16-247 | One user action or response arrival. Next and Back move the step and nothing else, pending request or not. Name, date and quantity are set only on step 1, and address, instructions and location only on step 2; an edit on another step changes nothing. Submit sends `HandleSubmit`'s request only from step 3, when not loading and the guard passes, and otherwise changes nothing. A response with nothing pending changes nothing. Otherwise it clears the pending request and loading, and either resets the form (success) or keeps the form as it is by then (failure or error). Its invariant is `DonationForm.AlwaysConsistent`. |
| DonationForm.SubmitThenRespond | components/events/donation-form.tsx:44-86 | Submitting and receiving the outcome with nothing in between is exactly `HandleSubmit`. |
| DonationForm.StepKeepsConsistent | components/events/donation-form.tsx:16-247 | Each action keeps the wizard on steps 1 to 3, loading exactly while a request is pending, with that request passing `EventSchema`. |
| DonationForm.AlwaysConsistent | components/events/donation-form.tsx:16-247 | The same holds after any sequence of actions and response arrivals. |
| DonationForm.ResponseSettles | components/events/donation-form.tsx:64-85 | In every consistent state, a response leaves nothing pending and the form not loading; a failure or a thrown request keeps the step and all fields. |
| DonationForm.NoSecondRequest | components/events/donation-form.tsx:235 | While a request is pending, pressing submit sends nothing. |
| DonationForm.LateSuccessDiscardsEdits | components/events/donation-form.tsx:64-75 | Stepping back twice to step 1 and editing the name during a pending request is possible, and its success then returns the form to step 1 with empty fields. |
| DonationForm.ReviewStepIsReadOnly | components/events/donation-form.tsx:208-247 | On step 3, whatever the user does short of pressing Back, the form data stays as reviewed until a response arrives. |
| DonationForm.ReachableProgress | components/events/donation-form.tsx:91-104 | In every reachable state exactly `step` circles and `step - 1` connectors are lit, circle 1 always among them. |

## Left out

- The hosted database and auth client are not part of this model. Every query that reads is taken to succeed. Each insert's success is a parameter. Auth is modelled as the `!user` guard intends, a user or none. As written, every route that checks a login binds `const { data: user } = await supabase.auth.getUser()` (for example app/api/calculations/route.ts:16). With the standard supabase-js client that binds the `{ user }` wrapper, which is always truthy, so `if (!user)` never fires and `user.id` is undefined. Every "401 without a user" contract models the intended guard, not this one.
- The GET handlers of `app/api/calculations/route.ts` and `app/api/events/route.ts` are not modelled. They only read back the user's rows.
- The `recentActivities` field of `GET /api/ecopoints` is not modelled; it is a plain read.
- The error branch of `GET /api/nudges` is not modelled. Its 30-day date window needs a clock, so the logs are given to `GenerateNudges` already selected.
- The success nudge's `toFixed(1)` text and all message strings are formatting. The nudges carry the numbers.
- The coach's logs are given already ordered newest first, since the store does the ordering, and the profile's household size is a parameter. The text generator is a function parameter of the context and message. The rest of the system prompt, the `timestamp` field of the reply (a clock) and the `ai_recommendations` insert are not modelled.
- LocationsRoute.HandleGet: the haversine distance is a parameter, because trigonometry on reals is not modelled. A `latitude`, `longitude` or `radius` that does not parse is not modelled either (JavaScript gives NaN).
- Floating-point rounding error is left out: numbers are exact reals.
- NaN is modelled only for the donation form's quantity field, where the code lets it through.
- A JSON body that is valid but not an object (an array, a number) is not modelled. Bodies are objects or unparsable.
- EcoPointsRoute.HandlePost: a truthy `points` that is not a number is taken to be refused by the database (500). The column type lives outside this code.
- EcoStoreRoute.HandlePost: the body is taken to be `{productId, pointsToSpend}` with a numeric price. A missing price, which compares false and would be inserted as null, is not modelled.
- The check-then-insert race between two concurrent purchases is not modelled; handlers run one at a time.
- MapsPage.Lower lower-cases ASCII letters only; `toLowerCase` covers all of Unicode.
- The maps page's geolocation, the fetch it ignores, and its five fixed entries are left out.
- The donation form's `handleGetLocation` is modelled as an action on step 2 that sets both coordinates at once; the browser's later callback, which could land after the user has left step 2, and a refused geolocation (which changes nothing) are not actions.
- The donation form's `onSuccess` callback and alerts are left out, and so is the rest of the eco-store page: the page reload and the alerts. A non-number `availablePoints` in a 200 body is not modelled.
- Pages other than these three, the layout components and the seed script are not part of this model.

## Findings

| source | as written | input that shows it | evidently intended | confidence | as-written member | corrected member |
|---|---|---|---|---|---|---|
| components/events/donation-form.tsx:45 | `food_quantity_kg <= 0` is false for NaN, so a quantity field the user emptied passes the guard. The form then posts `null`, which the server rejects with 400. | name "Wedding", date "2025-02-01", quantity field emptied (`parseFloat("")` is NaN) | Submit only a positive number of kilograms, so the form never sends a request the schema refuses. | high (not executed) | DonationForm.NaNQuantityGetsThrough | DonationForm.SentRequestsPassSchema |
