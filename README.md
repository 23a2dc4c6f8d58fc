# KaziSecure core, modelled in Dafny

KaziSecure is a financial assistant for gig workers. This project models the four parts of it that hold logic:

- **Budget allocation engine** (`budget.dfy`, module `Budget`). A predicted income and the predictor's confidence, together with optional user percentages, are split into four buckets: buffer, savings, essentials and discretionary.
  - The buffer grows as confidence falls: it is 8 plus a sixth of the missing confidence, rounded, and capped at 20.
  - Savings and essentials default to 20% and 50%.
  - Discretionary takes the residual, floored at 5%.
  - Each bucket's amount is its percentage of the income, rounded half up. This is JavaScript's `Math.round` on whole numbers.
- **USSD menu walker** (`ussd.dfy`, module `Ussd`, built on `js_text.dfy`, module `JsText`). The gateway sends, on every key press, everything dialled so far, such as `2*1*1500`.
  - The text is split on `*` and dispatched on its first choice, then on the path's length and its later choices.
  - Every reply is a CON screen, which keeps the session open, or an END screen, which closes it.
  - Amounts, months and PINs are read with JavaScript's `Number.parseInt`. `JsText` models that function and `String.prototype.split` as functions, with their own round-trip lemmas.
  - Sessions live in a map from session id to session, held in the `SessionStore` class.
- **Budget override store** (`budgets_api.dfy`, module `BudgetsApi`). This is a per-user JSON document of saved percentages.
  - POST is an upsert and GET is a lookup.
  - Both accept a request only when the Authorization header is `Bearer token-` followed by the user's id. A missing id means `anonymous`.
  - The document is a map in the `BudgetStore` class. `None` stands for a document that does not exist yet.
- **Phone number masking** (`phone_mask.dfy`, module `PhoneMask`). The registration form shows a number as `+CCC DXX XXX LLL`: the country code, the first subscriber digit and the last three digits.

`wrappers.dfy` holds the `Option` type and the map lookup the other modules share.

Two pieces of the models are abstractions rather than copies:

- A USSD reply is modelled as its leading word (`Con`/`End`), an abstract screen that carries the numbers the screen computes, and its separate `action` field. The multi-line texts are not modelled.
- The current time stamp and the request's JSON body arrive as parameters.

`computeAllocations` does not check for negative amounts. It rounds whatever amount it is given, so `ComputeAllocations` is total and has no error case.

## Model

| member | source | states |
|---|---|---|
| Budget.RoundHalfUp | lib/budget.ts:26 | `Math.round(n / d)`: the result r satisfies r - 1/2 <= n/d < r + 1/2, so halves round up |
| Budget.RoundHalfUpMonotone | lib/budget.ts:26 | rounding preserves the order of its arguments |
| Budget.ClampConfidence | lib/budget.ts:25 | the clamped confidence lies in 0..100; it is the input inside that range, 0 below it and 100 above it |
| Budget.BufferPct | lib/budget.ts:25-26 | for every confidence, including values below 0 and above 100, the buffer percentage lies in 8..20 |
| Budget.Alloc | lib/budget.ts:41 | a bucket keeps its percentage, and its amount is pct% of the amount rounded half up |
| Budget.Rounded | lib/budget.ts:41 | the `Math.round(pct / 100 * amount)` rule as a relation: amt - 1/2 <= pct% of amount < amt + 1/2; `Alloc` meets it and `RoundedIsUnique` shows it fixes amt |
| Budget.RoundedIsUnique | lib/budget.ts:41 | the rounding rule fixes a bucket's amount uniquely |
| Budget.ComputeAllocations | lib/budget.ts:24-49 | the buffer percentage is BufferPct(confidence); savings and essentials are the overrides when given, else 20 and 50; a discretionary override is copied verbatim; otherwise discretionary is at least 5 and at least the residual, and either it is exactly 5 or the four percentages sum to 100; every bucket is rounded correctly |
| Budget.BufferPctMonotone | lib/budget.ts:26 | a lower confidence never gives a smaller buffer |
| Budget.LowConfidenceLargerBuffer | lib/budget.ts:26 | confidence 40 gives buffer 18 and confidence 90 gives buffer 10 |
| Budget.BufferCapped | lib/budget.ts:26 | the buffer is 20 exactly when confidence is at most 31 |
| Budget.BufferFloor | lib/budget.ts:26 | the buffer is 8 exactly when confidence is at least 98 |
| Budget.BufferExtremes | lib/budget.ts:25-26 | confidence 100 or more gives buffer 8; confidence 0 or less gives buffer 20 |
| Budget.DefaultSplit | lib/budget.ts:29-36 | without overrides: savings 20, essentials 50, discretionary 30 - buffer (at least 10, so the floor of 5 is never hit), and the four percentages sum to 100 |
| Budget.ZeroAmount | lib/budget.ts:41-47 | amount 0 gives 0 in all four buckets, whatever the overrides |
| Budget.AmountConservation | lib/budget.ts:41-47 | without overrides, the four amounts sum to between amount - 1 and amount + 2 |
| JsText.DigitValue | app/api/ussd/route.ts:222 | a digit's value lies in 0..9 |
| JsText.DigitChar | app/api/ussd/route.ts:222 | the digit character for v is a digit whose value is v |
| JsText.Split | app/api/ussd/route.ts:61 | `text.split("*")` gives at least one piece; no piece contains `*`; joining the pieces with `*` gives back the text |
| JsText.SplitPrefix | app/api/ussd/route.ts:61 | a star-free prefix extends the first piece of the split of what follows it |
| JsText.SplitJoin | app/api/ussd/route.ts:61 | splitting undoes joining star-free pieces |
| JsText.ParseInt | app/api/ussd/route.ts:222 | `Number.parseInt(x)` (also at lines 302, 502, 519-520, 633 and 648) skips leading white space and reads an optional sign and the longest run of digits, NaN when there is none; its contract is `ParseIntReadsNumeral` (and `ParseSignedDigits` for digit runs with leading zeros) for the number case and `ParseIntWithoutLeadingDigit` for the NaN case, which between them cover every string |
| JsText.ParseSigned | app/api/ussd/route.ts:222 | parseInt after the white space: the digits after an optional sign, negated after `-`, NaN when no digit follows the sign; specified through `ParseSignedDigits` and `ParseIntWithoutLeadingDigit` |
| JsText.Unsigned | app/api/ussd/route.ts:222 | the text after one leading `+` or `-`; `SignThenDigits` shows it removes exactly the sign |
| JsText.Negative | app/api/ussd/route.ts:222 | the text starts with `-`; `SignThenDigits` shows only `-` makes the result negative |
| JsText.TrimStart | app/api/ussd/route.ts:222 | parseInt's skipping of leading white space returns a suffix of the input; it skips only white space and stops at the first character that is not white space |
| JsText.LeadingDigits | app/api/ussd/route.ts:222 | the digits parseInt reads are the longest all-digit prefix |
| JsText.Decimal | app/api/ussd/route.ts:222 | the decimal rendering of a natural number is a non-empty digit string |
| JsText.DecimalValue | app/api/ussd/route.ts:222 | reading back the rendering of n gives n |
| JsText.TrimSpaces | app/api/ussd/route.ts:222 | white space glued in front of a string that does not start with white space is skipped exactly |
| JsText.DigitsThenRest | app/api/ussd/route.ts:222 | digits followed by a non-digit are read up to that non-digit |
| JsText.SignThenDigits | app/api/ussd/route.ts:222 | one optional sign in front of a digit is taken off again, only `-` reads as negative, and the text does not start with white space |
| JsText.ParseSignedDigits | app/api/ussd/route.ts:222 | after the white space, an optional sign and a run of digits of value v, followed by a non-digit, are read as v, negated after `-` |
| JsText.ParseIntReadsNumeral | app/api/ussd/route.ts:222 | parseInt of white space, an optional sign, the digits of n and any non-digit tail gives n, negated after `-` |
| JsText.ParseIntWithoutLeadingDigit | app/api/ussd/route.ts:222-223 | parseInt is NaN when, after the white space and one optional sign, the next character is not a digit or there is none (`KSh1500`, `x5`, `+-5`, `- 5`) |
| JsText.ParseIntWithoutDigits | app/api/ussd/route.ts:222-223 | a string without any digit parses to NaN |
| Wrappers.Lookup | app/api/budgets/route.ts:44 | a lookup on a map's own keys, used for `data[id] or null` and for the menu type tables, finds an entry exactly when the key is present, and returns that key's entry |
| Ussd.FoundAsWritten | app/api/ussd/route.ts:208 | the type check `table[key]` as written, which also finds inherited names (likewise at lines 291 and 491); `InheritedKeyFoundAsWritten` shows it |
| Ussd.RecordedIncomeType | app/api/ussd/route.ts:233 | the income type remembered in userData, absent when no type was stored; `IncomeAmountEntered` shows it in the reply |
| Ussd.PinFormatOk | app/api/ussd/route.ts:633 | the PIN check `pin.length !== 4 or isNaN(parseInt(pin))` negated (also at line 648); `PinFormatAcceptsLeadingNumber` and `PinFormatRejects` state it |
| Ussd.PositiveAmount | app/api/ussd/route.ts:222-223 | an amount is accepted exactly when parseInt gives a number above 0, and it is that number |
| Ussd.CeilDiv | app/api/ussd/route.ts:529 | `Math.ceil(a / m)`: the smallest r with a <= m * r |
| Ussd.HandleBalanceMenu | app/api/ussd/route.ts:100-185 | every reply of the balance menu is consistent (CON with continue, END with end) |
| Ussd.HandleIncomeMenu | app/api/ussd/route.ts:187-246 | every reply is consistent, and the handler changes no session field except userData; the type check uses the corrected own-key lookup of the Findings row |
| Ussd.HandleExpensesMenu | app/api/ussd/route.ts:248-356 | every reply of the expenses menu is consistent; the type check uses the corrected own-key lookup of the Findings row |
| Ussd.HandleAIInsightsMenu | app/api/ussd/route.ts:358-437 | every reply of the insights menu is consistent |
| Ussd.HandleGoalsMenu | app/api/ussd/route.ts:439-576 | every reply of the goals menu is consistent; the type check uses the corrected own-key lookup of the Findings row |
| Ussd.HandleSecurityMenu | app/api/ussd/route.ts:578-732 | every reply of the security menu is consistent |
| Ussd.HandleHelpMenu | app/api/ussd/route.ts:734-849 | every reply of the help menu is consistent |
| Ussd.Route | app/api/ussd/route.ts:61-97 | routing on the first choice gives consistent replies and changes no session field except userData |
| Ussd.HandleRequest | app/api/ussd/route.ts:42-98 | empty text shows the main menu with continue; every reply is consistent; only userData may change |
| Ussd.HandleJoin | app/api/ussd/route.ts:61-64 | dialling the star-joined path reaches the route for exactly that path, including paths of two or more pieces whose first piece is empty (`*5`) |
| Ussd.DialIncome | app/api/ussd/route.ts:61-69 | dialling a path that starts with "2" is answered by the income menu with that path |
| Ussd.DialExpenses | app/api/ussd/route.ts:61-72 | dialling a path that starts with "3" is answered by the expenses menu with that path; the session is unchanged |
| Ussd.DialGoals | app/api/ussd/route.ts:61-78 | dialling a path that starts with "5" is answered by the goals menu with that path; the session is unchanged |
| Ussd.DialSecurity | app/api/ussd/route.ts:61-81 | dialling a path that starts with "6" is answered by the security menu with that path; the session is unchanged |
| Ussd.TopLevelExitAndInvalid | app/api/ussd/route.ts:86-96 | first choice "0" ends with goodbye; a first choice outside "0".."7", including an empty one before a star (`*` or `*5`), ends with the invalid-option screen; the session is untouched |
| Ussd.IncomeTypeChosen | app/api/ussd/route.ts:200-219 | `2*t`: with the corrected own-key lookup of the Findings row, a known type prompts for the amount and becomes the session's income type; anything else ends with "Invalid input" and leaves the session alone |
| Ussd.IncomeAmountEntered | app/api/ussd/route.ts:221-240 | `2*t*a`: NaN or at most 0 ends with "Invalid amount"; otherwise the reply shows the remembered type, the amount and balance 45280 + amount |
| Ussd.ExpenseAmountEntered | app/api/ussd/route.ts:301-315 | `3*1*t*a`: NaN or at most 0 ends with "Invalid amount"; otherwise the remaining budget is 60000 - 36780 - amount |
| Ussd.GoalTimeframeEntered | app/api/ussd/route.ts:518-539 | `5*2*g*a*m`: months that are NaN or at most 0 end with "Invalid timeframe"; otherwise the goal is created with target parseInt(a), which is not checked again, and monthly target CeilDiv(amount, months), i.e. ceil(amount / months); NaN when the amount is NaN |
| Ussd.PinCurrentEntered | app/api/ussd/route.ts:631-644 | `6*3*c`: the current PIN is accepted exactly when it has 4 characters and parseInt reads a number from it |
| Ussd.PinNewEntered | app/api/ussd/route.ts:646-659 | `6*3*c*p`: the new PIN is accepted by the same rule, and the current PIN is not checked again |
| Ussd.PinConfirmed | app/api/ussd/route.ts:661-680 | `6*3*c*p*q`: the change succeeds exactly when q equals p, and otherwise ends with "PINs don't match" |
| Ussd.PinFormatAcceptsLeadingNumber | app/api/ussd/route.ts:633 | any four characters that start with a digit, or with a sign and a digit, pass the PIN format check (so "12ab" and "-123" pass), hexadecimal prefix aside: as written, `0x` followed by two non-hex characters is NaN |
| Ussd.PinFormatRejects | app/api/ussd/route.ts:633 | an entry of any length other than 4, or one without a digit, fails the PIN format check |
| Ussd.BlockAccount | app/api/ussd/route.ts:696-709 | `6*4*1` followed by anything at all blocks the account |
| Ussd.GoalAmountNotRechecked | app/api/ussd/route.ts:518-539 | an amount with no digit at all (say `5*2*1*abc*6`) is not checked again on the last step: the goal is created with a NaN target and a NaN monthly target for any positive number of months |
| Ussd.TypeTablesOwnKeys | app/api/ussd/route.ts:201-210 | the corrected lookups accept exactly "1".."4" (income, goal) and "1".."5" (expense) |
| Ussd.InheritedKeyFoundAsWritten | app/api/ussd/route.ts:208-210 | as written, the inherited key "constructor" passes the income, expense and goal type checks, although no table has it |
| Ussd.GetOrCreate | app/api/ussd/route.ts:20-25 | an id already stored gets its stored session; a new id gets a session with that id and phone number, menu "main", step 0 and no userData |
| Ussd.SessionStore.Post | app/api/ussd/route.ts:14-31 | the reply is the handler's reply to the fetched or created session; the map gains or replaces exactly that id's entry; every stored session stays filed under its own id; a stored session keeps every field except userData |
| BudgetsApi.ResolveId | app/api/budgets/route.ts:20 | in POST, and likewise at line 39 in GET, a missing or empty userId is "anonymous"; any other id is used as given; the result is never empty |
| BudgetsApi.Authorized | app/api/budgets/route.ts:21 | the header test of POST (and of GET at line 41): a non-empty header equal to "Bearer token-" + id; `AuthorizedIsEquality` states it |
| BudgetsApi.AuthorizedIsEquality | app/api/budgets/route.ts:21 | the authorization test is exactly equality with "Bearer token-" + id, since the empty-header test is subsumed |
| BudgetsApi.TokenNamesOneUser | app/api/budgets/route.ts:21 | a header is accepted for at most one id |
| BudgetsApi.Loaded | app/api/budgets/route.ts:8-11 | an absent document reads as the empty map; an existing one reads as itself |
| BudgetsApi.Upsert | app/api/budgets/route.ts:26 | `data[id] = entry` sets id to the entry, adds id to the keys and changes no other entry |
| BudgetsApi.LookupAfterUpsert | app/api/budgets/route.ts:26-44 | a lookup after an upsert finds the new entry for that id and the old entry for any other id |
| BudgetsApi.BudgetStore.EnsureDb | app/api/budgets/route.ts:8-11 | an absent document becomes the empty map; an existing one is kept |
| BudgetsApi.BudgetStore.Post | app/api/budgets/route.ts:13-32 | if the header is the caller's token, reply ok with updatedAt and store the upsert of the entry; otherwise reply 401 and store nothing beyond creating the document |
| BudgetsApi.BudgetStore.Get | app/api/budgets/route.ts:34-48 | the document is only created if absent; for the caller's token reply ok with the entry or null, otherwise 401 with no data |
| BudgetsApi.PostThenGet | app/api/budgets/route.ts:13-48 | an authorised POST followed by an authorised GET for the same user returns the saved overrides and time |
| PhoneMask.StripNonDigits | components/auth/register-form.tsx:47 | `replace(/\D/g, "")` leaves only digits and never lengthens the string |
| PhoneMask.StripAppend | components/auth/register-form.tsx:47 | stripping distributes over concatenation |
| PhoneMask.StripDigits | components/auth/register-form.tsx:47 | a digit string is left as it is |
| PhoneMask.StripLetters | components/auth/register-form.tsx:47 | a string without digits strips to nothing |
| PhoneMask.Masked | components/auth/register-form.tsx:53 | the masked form of ten or more cleaned digits has 16 characters: "+", the first three digits, a space, the fourth digit, "XX XXX " and the last three digits |
| PhoneMask.MaskPhoneNumber | components/auth/register-form.tsx:44-56 | empty input gives "+254 7XX XXX XXX"; non-empty input with fewer than 10 digits is returned exactly as given, not its cleaned form |
| PhoneMask.MaskLayout | components/auth/register-form.tsx:49-54 | with at least 10 digits the result has 16 characters: "+", the first three digits, a space, the fourth digit, "XX XXX " and the last three digits |
| PhoneMask.StripAfterLetters | components/auth/register-form.tsx:47 | letters glued in front of a string do not change its digits |
| PhoneMask.StripAfterDigits | components/auth/register-form.tsx:47 | digits glued in front of a string are kept in front of its digits |
| PhoneMask.StripMaskedLayout | components/auth/register-form.tsx:53 | digits placed between separators that hold no digit are exactly the digits of the result |
| PhoneMask.MaskRevealsSevenDigits | components/auth/register-form.tsx:50-53 | a masked number shows exactly seven digits: the first four and the last three |
| PhoneMask.MaskIgnoresMiddleDigits | components/auth/register-form.tsx:50-53 | two numbers that agree on their first four and last three digits mask the same |
| PhoneMask.MaskIgnoresSeparators | components/auth/register-form.tsx:47-54 | once there are ten digits, a number masks the same as its digits alone |

## Left out

- Floating point: amounts, confidences and percentages are integers. Fractional inputs and IEEE rounding artefacts of `pct / 100 * amount` are not modelled.
- Budget.ComputeAllocations: confidence and amount are unbounded integers. JavaScript's 53-bit safe-integer limit is not modelled.
- JsText.ParseInt: the `0x`/`0X` hexadecimal prefix and the precision loss for numerals past 2^53 are not modelled. White space is the code-point set JavaScript skips.
- Ussd.PinFormatAcceptsLeadingNumber: because the hexadecimal prefix is not modelled, the model accepts `0x` followed by two non-hex characters (say `0xgg`) as a PIN, which `Number.parseInt` as written reads as NaN and so rejects.
- String lengths and characters are Dafny code points. JavaScript counts UTF-16 code units, so a PIN or number with characters outside the Basic Multilingual Plane may differ.
- The reply texts, `toLocaleString` formatting, `new Date()` time stamps and `console.error` are not modelled. Screens carry only the numbers they compute.
- Parsing the request JSON body and the catch-all "Service temporarily unavailable" reply, for example on a missing `text`, are not modelled.
- In the USSD route, the unused `input` and `currentChoice` locals (lines 43 and 62) compute nothing that reaches a reply.
- The `serviceCode` field is unused by the route and is not modelled.
- In the budgets route, file-system calls, JSON pretty-printing and the 500 error reply are not modelled. The time stamp is a parameter.
- BudgetsApi.BudgetStore.Post: the request body's `overrides` is taken as already parsed. A JSON `null` and malformed bodies are not distinguished from a missing value.
- BudgetsApi.BudgetStore.Post: a userId of `__proto__` is stored as an ordinary entry. As written, `data[id] = {...}` with that id runs the inherited `__proto__` setter: it replaces the prototype of `data` and adds no own key, so the file is written back unchanged while the reply is still ok. `Upsert` and `PostThenGet` therefore promise, for that one id, a stored entry and a GET that returns it, where the code saves nothing and the next GET returns `data: {}`.
- BudgetsApi.BudgetStore.Get: the model looks up the caller's id among the document's own keys. As written, `data[id]` on the parsed JSON object also finds inherited names. A user whose id is such a name (say `constructor`) would get a reply whose `data` is missing, or is `{}` for `__proto__`, instead of `null`. This is the same cause as the finding below.
- `loadUserBudget` and `saveUserBudget` (lib/budget.ts:59-75) are left out: they are browser `localStorage` access with exceptions ignored.
- The login and registration flows around `maskPhoneNumber`, and all rendering components, are left out: they hold no logic beyond sample data.
- Concurrency: there is none, and sessions never expire.

## Findings

| source | as written | input that shows it | evidently intended | confidence | as-written member | corrected member |
|---|---|---|---|---|---|---|
| app/api/ussd/route.ts:208-210 (also 291-292 and 491-492) | the chosen type is looked up as `table[key]` on a plain object and tested for truthiness, so keys every object inherits (`constructor`, `toString`, `__proto__`, ...) are found too | dialling `2*constructor` gets the amount prompt rather than "Invalid input", and the session's income type becomes a function; `3*1*toString` and `5*2*constructor` likewise prompt for an amount | only the table's own keys "1".."4" (or "1".."5") are accepted | not executed | Ussd.InheritedKeyFoundAsWritten | Ussd.TypeTablesOwnKeys |
