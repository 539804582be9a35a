# Meal-plan subscriptions and views, modelled in Dafny

The repository is a meal-planning web front end. It has one serverless handler, which
brokers monthly subscriptions through the Razorpay payment gateway and keeps subscription
rows in a `subscriptions` table. This project models that handler and the view-state logic
of three front-end components.

The handler (`supabase/functions/razorpay/index.ts`) runs these steps for each request:

- It answers CORS preflights.
- It authenticates the caller from the bearer token.
- It dispatches on `action`:
  - `create-plan` creates the canonical plan "Meal Plan Pro" at 100 paise in INR.
  - `create-subscription` reuses that plan or creates it, creates a provider subscription, and upserts the caller's row as `pending`.
  - `verify-payment` checks the HMAC-SHA256 signature of `paymentId|subscriptionId` in lower-case hex. On a match it marks the matching rows `active` for thirty days.
  - `check-subscription` reads the caller's row.
- Every thrown error becomes a 500.

How it is modelled:

- `Razorpay.Handle` is the handler as a function from the store, the configuration, the request, the services' answers and the clock to the new store and the response.
- `RazorpayService.SubscriptionService` is the same handler written the way the source runs it. It is a class that holds the table and the provider's plan list as fields and updates them in place with early returns. Each method is proved to agree with its step function and to keep the store invariant `Consistent`.

The components are modelled as follows:

- The form (`MealPlanForm.tsx`) is a class with its `formData` and `step` state and one method per control. The allergy toggle, the calorie fallback and the progress indicator are pure functions with lemmas.
- The result view (`MealPlanResult.tsx`) is a class holding the selected day, the open recipe and the active tab. The present-meals filter, the category heading, the day label and the badge are pure functions.
- The weekly display (`MealPlanDisplay.tsx`) has no state. `Render` computes what it draws and `Request` computes the day each control asks the parent for.

The JavaScript built-ins these need are written out in module `Js`: `parseInt`, `trim`, `String.prototype.replace` with a string pattern, `Math.max`/`Math.min`, and first-letter upper-casing. The hexadecimal encoding of the digest is in module `Hex`.

Details of the handler that the model follows:

- The plan lookup compares only the name and the amount, not the currency (index.ts:100-102).
- create-subscription upserts the caller's row as `pending` whatever its status was, so an `active` row goes back to `pending` (index.ts:157-164). The upsert writes no period columns, so an existing row keeps its period.
- A missing `paymentId` or `subscriptionId` enters the signed message, and the activation filter, as the string `"undefined"` (index.ts:183, 212).
- verify-payment activates the rows holding the named provider subscription id, whoever the caller is (index.ts:205-212).
- An empty Authorization header is treated like a missing one (index.ts:24).
- A plan listing that fails leaves `items` undefined, so a new plan is created (index.ts:100).
- Unset credentials are represented by the empty string, which JavaScript also treats as false (index.ts:44).

## Model

| member | source | states |
|---|---|---|
| Razorpay.Handle | supabase/functions/razorpay/index.ts:9-258 | every answer is 200, 400, 401 or 500; a 401 changes nothing; a non-200 answer leaves the table as it was; a table change needs an authenticated caller and a parsed body; the plan list only grows |
| Razorpay.Dispatch | supabase/functions/razorpay/index.ts:56-248 | the status is 400 exactly when the action is none of the four, and then nothing changes; a non-200 answer leaves the table alone; the plan list only grows |
| Razorpay.Caller | supabase/functions/razorpay/index.ts:23-39 | there is a caller exactly when the header is present, non-empty, and its token resolves; the caller is the user that token resolves to |
| Razorpay.Token | supabase/functions/razorpay/index.ts:31 | a header starting with "Bearer " presents what follows it; otherwise the result is the header or is seven characters shorter |
| Razorpay.TokenDeletesFirstBearer | supabase/functions/razorpay/index.ts:31 | the token is the header with its first "Bearer " deleted, wherever that occurs, and the header itself when it has none |
| Js.ReplaceFirst | supabase/functions/razorpay/index.ts:31 | a pattern at the start is replaced there; otherwise the result is the input or its length changes by the replacement's length minus the pattern's |
| Js.ReplaceFirstAbsent | supabase/functions/razorpay/index.ts:31 | a text in which the pattern does not occur is returned unchanged |
| Js.ReplaceFirstAt | supabase/functions/razorpay/index.ts:31 | at the first occurrence of the pattern, and only there, the pattern is swapped for the replacement |
| RazorpayService.SubscriptionService.Serve | supabase/functions/razorpay/index.ts:9-258 | one request updates the table and plan fields and answers exactly as `Handle` says, and keeps every row consistent with a listed plan |
| RazorpayService.SubscriptionService.CreatePlan | supabase/functions/razorpay/index.ts:56-85 | appends the canonical plan on success, answers 500 with the provider's message otherwise, and leaves the table alone |
| RazorpayService.SubscriptionService.CreateSubscription | supabase/functions/razorpay/index.ts:87-177 | reassigns `planId` from the listing or from a new plan, then upserts the caller's row in place, as `CreateSubscriptionStep` says |
| RazorpayService.SubscriptionService.VerifyPayment | supabase/functions/razorpay/index.ts:179-221 | compares the hex HMAC with the signature, then activates in place the rows with that provider id, as `VerifyPaymentStep` says |
| RazorpayService.SubscriptionService.CheckSubscription | supabase/functions/razorpay/index.ts:223-243 | changes nothing and answers with the caller's row and whether it is active |
| RazorpayProperties.PreflightShortCircuits | supabase/functions/razorpay/index.ts:11-13 | an OPTIONS request gets a null body before any check, and the store is unchanged |
| RazorpayProperties.MissingHeaderRejected | supabase/functions/razorpay/index.ts:23-29 | an absent or empty Authorization header gives 401 "Missing authorization header" and no change |
| RazorpayProperties.InvalidTokenRejected | supabase/functions/razorpay/index.ts:31-39 | a token the identity service does not resolve gives 401 "Invalid token" and no change |
| RazorpayProperties.UnauthorizedExactly | supabase/functions/razorpay/index.ts:23-39 | the status is 401 exactly when a non-preflight request has no caller, and a 401 changes nothing |
| RazorpayProperties.BearerTokenRead | supabase/functions/razorpay/index.ts:31 | the header "Bearer t" presents the token t |
| RazorpayProperties.MissingCredentialsFail | supabase/functions/razorpay/index.ts:41-46 | an authenticated request with a key unset gives 500 "Razorpay credentials not configured" and no change |
| RazorpayProperties.UnknownActionRejected | supabase/functions/razorpay/index.ts:245-248 | an admitted request with none of the four actions gives 400 "Invalid action" and no change |
| RazorpayProperties.ClientUserIdIgnored | supabase/functions/razorpay/index.ts:48-51 | replacing the body's `userId` by anything leaves the new store and the response the same |
| RazorpayProperties.RowChangesAccounted | supabase/functions/razorpay/index.ts:156-212 | a row changes only as the verified caller's own row in create-subscription, or as a row with the named provider id in a verify-payment whose signature matched |
| Razorpay.ProviderMessage | supabase/functions/razorpay/index.ts:79 | the error text is the provider's description when it gave one and the fallback otherwise, so it is never empty |
| Razorpay.FirstCanonical | supabase/functions/razorpay/index.ts:100-102 | the index found names a plan called "Meal Plan Pro" at amount 100, no earlier plan matches, and there is none exactly when no plan matches |
| Razorpay.ResolvePlan | supabase/functions/razorpay/index.ts:97-131 | a listed canonical plan is reused with the plans unchanged; otherwise the outcome succeeds exactly when creation does, and then appends that one plan and uses its id |
| RazorpayProperties.ReusesFirstCanonicalPlan | supabase/functions/razorpay/index.ts:100-105 | with a canonical plan listed, the caller's row takes the first such plan's id and no plan is created |
| RazorpayProperties.SubscriptionLeavesCanonicalPlan | supabase/functions/razorpay/index.ts:104-131 | after a successful create-subscription the provider lists a canonical plan |
| RazorpayProperties.RepeatedSubscriptionCreatesNoPlan | supabase/functions/razorpay/index.ts:100-131 | after one successful create-subscription, a later one with a working listing creates no plan |
| Razorpay.Upsert | supabase/functions/razorpay/index.ts:157-164 | the caller has a row with the new subscription id, the plan id and `pending`; its period is kept; no other row changes |
| Razorpay.CreatePlanStep | supabase/functions/razorpay/index.ts:56-85 | 200 exactly when the provider created the plan, which then is appended; the table never changes |
| Razorpay.CreateSubscriptionStep | supabase/functions/razorpay/index.ts:87-177 | 200 exactly when the plan is resolved and the subscription created; then the caller's row is upserted unless the upsert fails; other rows never change; plans only grow |
| RazorpayProperties.CreatePlanKeepsConsistency | supabase/functions/razorpay/index.ts:56-85 | create-plan only appends a plan, so every row keeps a listed plan |
| RazorpayProperties.CreateSubscriptionKeepsConsistency | supabase/functions/razorpay/index.ts:87-177 | create-subscription writes a pending row whose plan is listed afterwards and leaves the other rows consistent |
| RazorpayProperties.SubscriptionRecordedPending | supabase/functions/razorpay/index.ts:157-176 | after a successful create-subscription the caller has one pending row with the created id and a listed plan; every other row is as before |
| RazorpayProperties.FailedUpsertSwallowed | supabase/functions/razorpay/index.ts:166-176 | a failing upsert still answers 200 with the subscription, and the table is as before |
| Hex.ToRadix16Numeral | supabase/functions/razorpay/index.ts:197 | `toString(16)` writes lower-case digits without a leading zero: one digit below 16 and the two nibbles from 16 to 255 |
| Hex.PadStartShape | supabase/functions/razorpay/index.ts:197 | `padStart` reaches the width, keeps the string at its end and puts only the fill character in front |
| Hex.ByteToHex | supabase/functions/razorpay/index.ts:197 | `b.toString(16).padStart(2, "0")` is the high nibble's digit followed by the low nibble's |
| Hex.Encode | supabase/functions/razorpay/index.ts:196-198 | the output is twice as long as the input and holds only lower-case hex digits |
| Hex.EncodeAt | supabase/functions/razorpay/index.ts:196-198 | digits 2i and 2i+1 are the two nibbles of byte i |
| Hex.DecodeEncode | supabase/functions/razorpay/index.ts:196-198 | decoding the encoding gives back the bytes |
| Hex.EncodeDecode | supabase/functions/razorpay/index.ts:196-198 | every string that decodes is the encoding of its decoding |
| Hex.EncodeInjective | supabase/functions/razorpay/index.ts:196-198 | different digests have different encodings |
| Js.ToJsString | supabase/functions/razorpay/index.ts:183 | a present field reads as itself, and "undefined" is read for a missing field and for the literal string "undefined" alike |
| Razorpay.SignedMessage | supabase/functions/razorpay/index.ts:183 | with both ids present the message is `paymentId|subscriptionId`; a missing id reads as "undefined" at its end of the message |
| Razorpay.ExpectedSignature | supabase/functions/razorpay/index.ts:183-198 | the expected signature is 64 lower-case hex digits |
| Razorpay.ValidSignatureShape | supabase/functions/razorpay/index.ts:183-202 | only a supplied string of 64 lower-case hex digits passes the comparison |
| Razorpay.VerifyPaymentStep | supabase/functions/razorpay/index.ts:179-221 | 200 exactly when the signature matches and the update succeeds, and then the table is `Activate`d; otherwise 500 with the matching message and nothing changes |
| RazorpayProperties.VerifiedExactlyWhenSignatureMatches | supabase/functions/razorpay/index.ts:200-216 | an admitted verify-payment succeeds if and only if the signature is valid and the update goes through, and a failure changes nothing |
| RazorpayProperties.TamperedSignatureRejected | supabase/functions/razorpay/index.ts:200-202 | any signature other than the expected one gives 500 "Invalid payment signature" and no change |
| RazorpayProperties.SignatureBindsMessage | supabase/functions/razorpay/index.ts:183-202 | when two messages have different HMAC tags, no one signature string is accepted for both |
| Razorpay.Activate | supabase/functions/razorpay/index.ts:205-212 | exactly the rows with the named provider id become active with period start `now` and end `now` + 30 days; the other rows are unchanged |
| RazorpayProperties.ActivationExact | supabase/functions/razorpay/index.ts:207-212 | after activation a row is active if and only if it had the named id or was already active, and its period lasts 2592000000 ms |
| RazorpayProperties.VerifyPaymentKeepsConsistency | supabase/functions/razorpay/index.ts:179-221 | the rows verify-payment activates get a full thirty-day period and keep their plan |
| RazorpayProperties.ActivationRequiresValidSignature | supabase/functions/razorpay/index.ts:200-212 | a row becomes active only through an admitted verify-payment with a valid signature |
| Razorpay.CheckSubscriptionStep | supabase/functions/razorpay/index.ts:223-243 | the store is unchanged; a select error is a 500; otherwise the answer carries the caller's row and `isSubscribed` holds exactly when that row is active |
| RazorpayProperties.CheckIsReadOnly | supabase/functions/razorpay/index.ts:223-243 | an admitted check-subscription changes nothing and reports subscribed exactly for an active row of the caller |
| RazorpayProperties.HandlePreservesConsistency | supabase/functions/razorpay/index.ts:156-212 | every request keeps each active row's thirty-day period and each row's plan among the listed plans |
| RazorpayProperties.SubscribePayCheck | supabase/functions/razorpay/index.ts:87-243 | subscribe, pay with the provider's signature, then check: the row goes pending, then active for thirty days, and the check reports it subscribed without changing anything |
| RazorpayProperties.TamperedPaymentStaysPending | supabase/functions/razorpay/index.ts:179-202 | paying with a tampered signature leaves a pending row pending |
| Js.Max | src/components/MealPlanResult.tsx:181 | `Math.max` is the larger of its two arguments |
| Js.Min | src/components/MealPlanResult.tsx:189 | `Math.min` is the smaller of its two arguments |
| Js.TrimStart | src/components/MealPlanResult.tsx:297 | only leading white space is removed, and the result does not start with white space |
| Js.TrimEnd | src/components/MealPlanResult.tsx:297 | only trailing white space is removed, and the result does not end with white space |
| Js.Trim | src/components/MealPlanResult.tsx:297 | the result has no white space at either end, and a string with none there is returned as it is |
| Js.LeadingWhiteSpace | src/components/MealPlanResult.tsx:297 | the count of leading characters that are white space, stopping at the first one that is not |
| Js.TrimKeepsMiddle | src/components/MealPlanResult.tsx:297 | the trimmed text is the slice of the input right after its leading white space, and only white space follows that slice |
| Js.Capitalize | src/components/MealPlanResult.tsx:256 | only the first character is upper-cased; the rest and the length are unchanged |
| Js.ParseIntReadsNumeral | src/components/MealPlanForm.tsx:245 | after white space and an optional sign, `parseInt` reads the decimal numeral up to the first non-digit, negated for "-" |
| Js.ParseIntNaN | src/components/MealPlanForm.tsx:245 | `parseInt` is NaN when no decimal digit follows the white space and the optional sign, the empty input included |
| Js.ParseIntDecimal | src/components/MealPlanForm.tsx:245 | `parseInt` reads back the decimal numeral of every natural number |
| MealPlanForm.MealPlanForm.constructor | src/components/MealPlanForm.tsx:68-78 | the form starts on step 1 with India, vegetarian, maintenance, medium, no allergies, 4 meals and 2000 calories |
| MealPlanForm.MealPlanForm.Click | src/components/MealPlanForm.tsx:160-293 | a navigation button on its own step sets the step it names, keeps it in 1..3, and leaves the form data alone |
| MealPlanForm.StepMoves | src/components/MealPlanForm.tsx:160-293 | the only step moves are 1 to 2, 2 to 1, 2 to 3 and 3 to 2 |
| MealPlanForm.MealPlanForm.ToggleAllergy | src/components/MealPlanForm.tsx:85-91 | only `allergies` changes, and it becomes `Toggle` of the old list; the list stays free of duplicates |
| MealPlanForm.Toggle | src/components/MealPlanForm.tsx:85-91 | the toggled allergy is selected afterwards exactly when it was not before; every other allergy stays selected or not; a new one is appended |
| MealPlanForm.Remove | src/components/MealPlanForm.tsx:89 | the filter keeps exactly the entries other than the allergy and never grows the list |
| MealPlanForm.RemoveCounts | src/components/MealPlanForm.tsx:89 | the filter drops every occurrence of the allergy and keeps every other entry as often as before |
| MealPlanForm.RemoveDistributes | src/components/MealPlanForm.tsx:89 | the filter of a concatenation is the concatenation of the filters, so the order is kept |
| MealPlanForm.RemoveAbsent | src/components/MealPlanForm.tsx:89 | filtering out an absent entry changes nothing |
| MealPlanForm.ToggleRemovesPresent | src/components/MealPlanForm.tsx:88-89 | toggling a present allergy removes all its occurrences and keeps every other entry, in order |
| MealPlanForm.ToggleTwiceRestores | src/components/MealPlanForm.tsx:88-90 | toggling an absent allergy twice restores the list exactly |
| MealPlanForm.ToggleKeepsNoDuplicates | src/components/MealPlanForm.tsx:85-91 | a list without duplicates has none after a toggle |
| MealPlanForm.CalorieInput | src/components/MealPlanForm.tsx:245 | the target is the parsed number when it is non-zero, and 2000 when parsing fails or gives 0 |
| MealPlanForm.CalorieInputReadsNumber | src/components/MealPlanForm.tsx:245 | a typed positive number becomes the target as it is |
| MealPlanForm.CalorieInputDefaults | src/components/MealPlanForm.tsx:245 | a cleared input and a typed 0 both give 2000 |
| MealPlanForm.MealPlanForm.SetCalorieTarget | src/components/MealPlanForm.tsx:245 | only `calorieTarget` changes, to `CalorieInput` of the typed text |
| MealPlanForm.MealPlanForm.SetMealsPerDay | src/components/MealPlanForm.tsx:258-262 | parsing the chosen option's numeral sets `mealsPerDay` to that option and changes nothing else |
| MealPlanForm.MealPlanForm.SetCountry | src/components/MealPlanForm.tsx:126-131 | only `country` changes, to the chosen country |
| MealPlanForm.MealPlanForm.SetDietaryPreference | src/components/MealPlanForm.tsx:146 | only `dietaryPreference` changes |
| MealPlanForm.MealPlanForm.SetHealthGoal | src/components/MealPlanForm.tsx:181 | only `healthGoal` changes |
| MealPlanForm.MealPlanForm.SetBudget | src/components/MealPlanForm.tsx:206 | only `budget` changes |
| MealPlanForm.MealPlanForm.Submit | src/components/MealPlanForm.tsx:80-83 | submitting hands over the form data unchanged |
| MealPlanForm.Indicator | src/components/MealPlanForm.tsx:326 | an indicator is current exactly on its own step, done exactly before it and upcoming exactly after it |
| MealPlanForm.IndicatorsAgreeWithStep | src/components/MealPlanForm.tsx:322-330 | exactly the indicator of the current step is current, the earlier ones are done, and the later ones are upcoming |
| MealPlanResult.PresentMeals | src/components/MealPlanResult.tsx:122-124 | the filter lists no more meals than there are slots, and lists none exactly when every slot is empty |
| MealPlanResult.MealsOf | src/components/MealPlanResult.tsx:120-124 | a missing day or missing meals give no cards; otherwise the cards are the day's present meals |
| MealPlanResult.PresentMealMember | src/components/MealPlanResult.tsx:122-124 | a meal is listed exactly when its slot holds it |
| MealPlanResult.PresentMealsAppend | src/components/MealPlanResult.tsx:122-124 | the filter works slot by slot, so the listed meals keep the slots' order |
| MealPlanResult.PresentMealsOne | src/components/MealPlanResult.tsx:122-124 | an empty slot contributes nothing and a filled one exactly its meal |
| MealPlanResult.InsertSpaces | src/components/MealPlanResult.tsx:297 | every upper-case letter gets a space in front of it, and the replacement introduces no white space other than spaces |
| MealPlanResult.InsertSpacesAppend | src/components/MealPlanResult.tsx:297 | the regex replacement works character by character |
| MealPlanResult.InsertSpacesLower | src/components/MealPlanResult.tsx:297 | a string without capitals is left alone |
| MealPlanResult.UnspacedInsertSpaces | src/components/MealPlanResult.tsx:297 | the inserted spaces are the only difference the replacement makes |
| MealPlanResult.UnspacedTrim | src/components/MealPlanResult.tsx:297 | trimming a string whose only white space is spaces removes nothing but spaces |
| MealPlanResult.CategoryLabel | src/components/MealPlanResult.tsx:297 | for a key without white space that does not start with a capital, the heading is the spaced key with nothing trimmed |
| MealPlanResult.CategoryLabelRecoversKey | src/components/MealPlanResult.tsx:297 | deleting the spaces of a category heading gives back its key |
| MealPlanResult.CamelCaseHeading | src/components/MealPlanResult.tsx:297 | a key with one capital gets exactly one space, in front of that capital |
| MealPlanResult.VisibleCategories | src/components/MealPlanResult.tsx:292-293 | every category shown has a non-empty item list |
| MealPlanResult.VisibleCategoryMember | src/components/MealPlanResult.tsx:292-293 | a category is shown exactly when it has items |
| MealPlanResult.DayLabel | src/components/MealPlanResult.tsx:210 | a day button shows `dayName` when it is non-empty and the day key otherwise |
| MealPlanResult.TypeLabel | src/components/MealPlanResult.tsx:256 | the badge upper-cases only the first letter of the meal type |
| MealPlanResult.MealIcon | src/components/MealPlanResult.tsx:250 | an unknown meal type shows the plate |
| MealPlanResult.PrevIndex | src/components/MealPlanResult.tsx:181-182 | Prev gives at least 0 and at least one less than the index, and keeps the index exactly at 0, where the button is disabled |
| MealPlanResult.NextIndex | src/components/MealPlanResult.tsx:189-190 | Next gives at most the last day and at most one more than the index, and keeps the index exactly at the last day, where the button is disabled |
| MealPlanResult.NavigationStaysInRange | src/components/MealPlanResult.tsx:181-190 | Prev and Next keep the index among the values it can take, and on a non-empty plan Next moves it by at most one day |
| MealPlanResult.ResultView.constructor | src/components/MealPlanResult.tsx:115-117 | the view starts on day 0 and the plan tab, with no recipe open |
| MealPlanResult.ResultView.CurrentDay | src/components/MealPlanResult.tsx:119-120 | an index outside the plan names no day |
| MealPlanResult.ResultView.Prev | src/components/MealPlanResult.tsx:181-182 | the index becomes `max(0, i-1)`, one less for a positive index, and stays in range |
| MealPlanResult.ResultView.Next | src/components/MealPlanResult.tsx:189-190 | the index becomes `min(len-1, i+1)`, one more for a non-empty plan, and stays in range |
| MealPlanResult.ResultView.SelectDay | src/components/MealPlanResult.tsx:203 | day button `index` selects exactly that day |
| MealPlanResult.ResultView.SetTab | src/components/MealPlanResult.tsx:131 | a tab button sets only the tab |
| MealPlanResult.ResultView.OpenRecipe | src/components/MealPlanResult.tsx:245 | a meal card opens the recipe of its own meal |
| MealPlanResult.ResultView.CloseRecipe | src/components/MealPlanResult.tsx:427 | the backdrop closes the recipe and changes nothing else |
| MealPlanResult.ResultView.GroceryHeadings | src/components/MealPlanResult.tsx:292-297 | the grocery headings are the labels of the visible categories, in order |
| MealPlanDisplay.Render | src/components/MealPlanDisplay.tsx:33-92 | nothing is drawn exactly when `selectedDay` is outside the week; otherwise one day button per day, only the selected one highlighted, the disabled flags, and one card per meal of that day in order |
| MealPlanDisplay.OneDaySelected | src/components/MealPlanDisplay.tsx:74-82 | exactly one day button is highlighted, the selected one |
| MealPlanDisplay.RequestInWeek | src/components/MealPlanDisplay.tsx:55-77 | from a drawn day, Prev asks for a day between d-1 and d, Next for one between d and d+1, and day button `index` for `index`, all inside the week |
| MealPlanDisplay.Request | src/components/MealPlanDisplay.tsx:55-77 | Prev asks for no less than 0 and at least d-1, Next for no more than the last day and at most d+1, each for d itself only at its end; day button `index` asks for `index` |
| MealPlanDisplay.Disabled | src/components/MealPlanDisplay.tsx:55-64 | Prev and Next are disabled exactly when they would ask for the day already shown; day buttons never are |
| MealPlanDisplay.Emoji | src/components/MealPlanDisplay.tsx:96-99 | every meal type gets one of the four pictures, and the fall-through apple exactly for the snack |
| MealPlanDisplay.EmojiDistinct | src/components/MealPlanDisplay.tsx:96-99 | different meal types get different pictures |
| MealPlanDisplay.TypeLabels | src/components/MealPlanDisplay.tsx:105 | the badges read Breakfast, Lunch, Dinner and Snack |

## Left out

- Network I/O is not modelled as calls. This covers the identity service (`auth.getUser`), the provider's plan and subscription endpoints, and the database client. Their answers are fields of `Env`, and the provider's plan list is part of the store.
- HMAC-SHA256 and `TextEncoder` are not modelled. The tag is a function-typed field of `Config`, so nothing about the hash function (FIPS 180-4) or the HMAC construction (RFC 2104) is proved.
- CORS headers, response headers, `console` logging and `btoa` are left out as plumbing.
- `JSON` serialisation is left out. A body that fails to parse is a `Malformed` payload carrying the parser's message. Responses are values, not JSON text.
- `Date` is left out. The clock is the parameter `now` in milliseconds, and the ISO timestamp strings are not modelled.
- Concurrent requests are not modelled, since each request is one atomic step. The race between two upserts for the same user is therefore not covered.
- Razorpay.Activate: both period columns come from one clock reading `now`, so the period is exactly thirty days. The source reads the clock twice (index.ts:209 and 210), so its end lies thirty days after a reading taken slightly later than the start. `Consistent` and `ActivationExact` hold only under this single-reading view.
- Razorpay.ResolvePlan: the provider's plan listing is taken to be every plan in the model's store, in the order the plans were created. The source uses whatever the single GET returns (index.ts:89-102). That may be one page, or in another order. So "the first canonical plan" in `ReusesFirstCanonicalPlan` and the no-new-plan result of `RepeatedSubscriptionCreatesNoPlan` rest on this assumption.
- Razorpay.CheckSubscriptionStep: the 500 message of a failed select is taken from `Env` as given. Whether the platform reports the client's error message or "Unknown error occurred" depends on whether that error object is an `Error` instance, which is not part of this model.
- Js.ParseInt: results are unbounded integers. Large inputs do not lose precision as JavaScript numbers do.
- Js.ToUpper covers only the ASCII letters. Other characters are left as they are, and strings are sequences of code points rather than UTF-16 code units.
- `Object.keys` order is not modelled. The day entries and grocery categories are taken in the order the data gives them. JavaScript's reordering of integer-like keys is left out.
- MealPlanForm.MealPlanForm.Click and the other control methods require the control to be on screen and enabled. A click on a hidden or disabled control is not modelled. For Prev and Next, the contracts of `PrevIndex` and `NextIndex` show such a click would not move the index anyway.
- The `isLoading` flag, the submit button's spinner, `className` styling and all JSX layout are left out as presentation.
- The daily totals, macros, tips and budget panels of the result view are left out. They only display values and have no logic beyond a presence test.
- MealPlanResult.CategoryLabel gives the heading's text. The heading's `capitalize` class upper-cases the first letter of each word when it is drawn; that CSS text transform is presentation and is not modelled.
- `userPreferences.healthGoal.replace("_", " ")` in the result header is left out as display text.
- `NutritionStats.tsx` is left out because its percentages use floating-point division and `toFixed`.
- The subscription gate, the dashboard, the landing page, the hero section, the header, the sidebar and the index page are left out. They are asynchronous orchestration or static presentation.
