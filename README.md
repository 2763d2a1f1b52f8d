# Personal Finance Tracker: decision rules around transaction records

This project models, in Dafny, the decision rules of a MERN personal-ledger
application. The rules say:

- what a stored transaction is, which is the Mongoose field descriptor;
- how `insertTransaction` builds a transaction and who owns it;
- when the AI endpoint accepts the language model's reply;
- when a request counts as authenticated, which is the bearer-token middleware;
- what the input validators let through: the password rule, the sign-up and
  log-in schemas, and the generic `validate(schema)` middleware;
- what the client pages check, hold for review and sum up: the sign-up form,
  the add-transaction page and the dashboard.

The network, the database, the language model, `JSON.parse`, `jwt.verify`,
the e-mail format check and `Number()` are all parameters. What is left is
small sequential logic, and the model proves its contracts.

Files, one module each:

- `transaction_schema.dfy` (`TransactionSchema`): the document. A `Draft`
  holds what the model constructor receives. A `Transaction` is what a save
  produces. The module has the enumeration parsers and `Save`, which applies
  the validators, the `date` default and the timestamps.
- `transaction_controller.dfy` (`TransactionController`): `insertTransaction`.
  It is a method of a store class whose `records` field holds the saved
  documents.
- `ai_controller.dfy` (`AiController`): the prompt and the reply gate of
  `parseTransaction`.
- `auth_middleware.dfy` (`AuthMiddleware`): token extraction and the
  401 / `next()` decision.
- `auth_validator.dfy` (`AuthValidator`): `passwordRule` as regular-expression
  semantics, plus `signUpSchema` and `logInSchema` as lists of issues.
- `validate_inputs.dfy` (`ValidateInputs`): `validate(schema)`.
- `register.dfy` (`Register`): the ordered checks of the sign-up form.
- `add_transaction.dfy` (`AddTransaction`): the add-transaction page as a
  class. Its fields are the page state and its methods are `analyzeText`,
  `clearAI`, `saveAITransactions` and `handleSubmit`.
- `dashboard.dfy` (`Dashboard`): the income/expense accumulation loop, the
  balance and the category capitalisation.
- Helper modules:
  - `wrappers.dfy` (`Option`);
  - `json.dfy`: parsed JSON values, property reads and JavaScript truthiness;
  - `js_strings.dfy`: `split(" ")`, `join` and `trim()`.

The model follows the code as written. In particular:

- The schema puts no sign or minimum on `amount`, so zero and negative
  amounts are stored.
- `paymentMethod` accepts only cash, card, upi and bank. "others" is rejected.
- Categories are stored as given. They are not lowercased.
- The AI reply is passed back untouched. There is no normalisation and no
  confidence clamping.
- There is no batch ingestion in the code modelled here.

A required String field counts as missing when it is the empty string. This
is Mongoose's rule for `required` strings.

## Model

| member | source | states |
|---|---|---|
| `TransactionSchema.ParseKind` | Backend/Schema/TransactionSchema.js:11-15 | the `type` enum accepts exactly "income" and "expense", and a parsed kind spells back to the same string |
| `TransactionSchema.ParsePaymentMethod` | Backend/Schema/TransactionSchema.js:31-34 | the `paymentMethod` enum accepts exactly cash, card, upi, bank, and a parsed value spells back to the same string |
| `TransactionSchema.Conforms` | Backend/Schema/TransactionSchema.js:3-39 | the field descriptor's validators (required owner, type and amount, non-empty category, the two closed enums); no ensures of its own, `Save` succeeds exactly when it holds |
| `TransactionSchema.Save` | Backend/Schema/TransactionSchema.js:3-44 | a save succeeds exactly when the draft conforms to the descriptor; the saved document carries the draft's fields, the construction time as `date` when none was given, and the save time as `createdAt` and `updatedAt` |
| `TransactionSchema.SavedRoundTrip` | Backend/Schema/TransactionSchema.js:3-44 | every document a save can produce conforms to the descriptor, and saving its fields again gives the same document |
| `TransactionSchema.OwnerRequired` | Backend/Schema/TransactionSchema.js:5-9 | a draft without `userId` is never saved |
| `TransactionSchema.KindIsClosed` | Backend/Schema/TransactionSchema.js:11-15 | a missing `type`, or any string other than "income" and "expense", is rejected |
| `TransactionSchema.AmountUnconstrained` | Backend/Schema/TransactionSchema.js:17-20 | any amount, zero and negative included, is saved as given; a missing amount is rejected |
| `TransactionSchema.CategoryRequiredDescriptionOptional` | Backend/Schema/TransactionSchema.js:22-29 | a missing or empty category is rejected; `description` can be anything or absent |
| `TransactionSchema.PaymentMethodClosed` | Backend/Schema/TransactionSchema.js:31-34 | an absent payment method is accepted, "bank" is accepted, "others" is rejected |
| `TransactionSchema.DateDefault` | Backend/Schema/TransactionSchema.js:36-39 | without a date the document is dated at construction time; a given date is kept |
| `TransactionController.BuildDraft` | Backend/Controllers/transactionController.js:19-31 | the fields handed to the model constructor; no ensures of its own, characterised by `OwnerAndDateFromServer` and `StoredFields` |
| `TransactionController.OwnerAndDateFromServer` | Backend/Controllers/transactionController.js:19-31 | the stored document does not depend on the body's `userId` or `date`: bodies agreeing on the five business fields give the same document |
| `TransactionController.StoredFields` | Backend/Controllers/transactionController.js:19-31 | a saved document holds the token's user id, the server time as date, and type, amount, category, description and payment method exactly as in the body |
| `TransactionController.TransactionStore.constructor` | Backend/Schema/TransactionSchema.js:46 | the collection starts empty and satisfies the store invariant (conforming documents, distinct ids) |
| `TransactionController.TransactionStore.InsertTransaction` | Backend/Controllers/transactionController.js:17-49 | on a conforming draft and a working database, exactly one document is appended and nothing else in the store changes; the answer is 201 with an echo of the same id, owner, amount, category, description and date; otherwise the store is unchanged and the answer is 500 "Server Error"; the store keeps only conforming documents with distinct ids |
| `AiController.Prompt` | Backend/Controllers/aiController.js:37-59 | the prompt template with the text in it; no ensures of its own, characterised by `PromptQuotesText` and `PromptInjective` |
| `AiController.ParseTransaction` | Backend/Controllers/aiController.js:32-98 | an accepted answer's body always has an array `transactions`, and both 400 answers carry the model's reply text as it came; the lemmas below give each outcome's exact condition |
| `AiController.PromptQuotesText` | Backend/Controllers/aiController.js:37-59 | the caller's text stands verbatim in the prompt, between `"""` delimiters |
| `AiController.PromptInjective` | Backend/Controllers/aiController.js:37-59 | different texts give different prompts |
| `AiController.SingleModelCall` | Backend/Controllers/aiController.js:62-69 | the answer depends on the model only through its reply to this one prompt |
| `AiController.InvalidJsonKeepsRaw` | Backend/Controllers/aiController.js:75-82 | the answer is 400 "AI returned invalid JSON" exactly when the reply does not parse, and it carries the raw reply unchanged |
| `AiController.WrongShapeKeepsRaw` | Backend/Controllers/aiController.js:84-90 | the answer is 400 "Invalid AI response format" exactly when the reply parses to a non-null value without an array `transactions`, and it carries the raw reply; the two 400 messages differ |
| `AiController.AcceptedUnchanged` | Backend/Controllers/aiController.js:92-93 | the answer is 200 exactly when the parsed reply is an object whose `transactions` is an array, and the body is the parsed value itself |
| `AiController.ProcessingErrorCases` | Backend/Controllers/aiController.js:94-97 | an upstream failure, or a reply that parses to `null`, gives 500 "AI Processing Error" without the raw reply, and nothing else does |
| `AiController.EmptyListAccepted` | Backend/Controllers/aiController.js:85-93 | `{"transactions": []}` is accepted as it is |
| `AuthMiddleware.HeaderValue` | Backend/Middlewares/authMiddleware.js:6 | the header, or "" when it is missing; no ensures of its own, characterised by `MissingHeaderIsEmpty` |
| `AuthMiddleware.TokenOf` | Backend/Middlewares/authMiddleware.js:9 | the extracted token never contains a space |
| `AuthMiddleware.Authenticate` | Backend/Middlewares/authMiddleware.js:3-25 | `next()` is reached only with a present token that verifies to a truthy payload, which becomes `req.user`; every refusal carries one of the two 401 messages |
| `AuthMiddleware.MissingHeaderIsEmpty` | Backend/Middlewares/authMiddleware.js:6-9 | a missing header reads as "" and gives no token |
| `AuthMiddleware.TokenIsSecondField` | Backend/Middlewares/authMiddleware.js:9 | the token is the second space-separated field: the first word is not checked and later fields are ignored |
| `AuthMiddleware.MalformedHeaders` | Backend/Middlewares/authMiddleware.js:9-14 | a header of one word, or with two spaces after the first word, carries no usable token |
| `AuthMiddleware.NoTokenNoVerify` | Backend/Middlewares/authMiddleware.js:9-14 | without a token the answer is 401 "JWT Token Not Found / JWT Format Not Correct", whatever the verifier would say |
| `AuthMiddleware.VerifyFailureRejects` | Backend/Middlewares/authMiddleware.js:16-24 | the answer is 401 "You Are Not Logged In" exactly when a token is present and verification throws |
| `AuthMiddleware.NextIffVerified` | Backend/Middlewares/authMiddleware.js:16-21 | `next()` is reached exactly when the token verifies to a truthy payload, `req.user` is that payload, and only refusals carry a status |
| `AuthMiddleware.BearerAccepted` | Backend/Middlewares/authMiddleware.js:6-21 | "Bearer " followed by a verifying token passes with its payload |
| `JsStrings.Split` | Backend/Middlewares/authMiddleware.js:9 | `split(" ")` gives at least one field and no field contains the separator |
| `JsStrings.JoinSplit` | Backend/Middlewares/authMiddleware.js:9 | joining the fields of a split gives back the header |
| `JsStrings.SplitJoin` | Backend/Middlewares/authMiddleware.js:9 | splitting a join of separator-free fields gives back the fields |
| `JsStrings.Trim` | Frontend/src/pages/AddTransaction.tsx:33 | `trim()`; no ensures of its own, characterised by `TrimEmptyIffBlank` |
| `JsStrings.TrimEmptyIffBlank` | Frontend/src/pages/AddTransaction.tsx:33 | `text.trim()` is empty exactly when every character is JavaScript whitespace |
| `AuthValidator.PasswordRule` | Backend/utils/authValidator.js:7-8 | the regular expression's semantics; no ensures of its own, characterised by `PasswordRuleMeaning` and the lemmas below it |
| `AuthValidator.PasswordRuleMeaning` | Backend/utils/authValidator.js:3-8 | the rule holds exactly for strings of 8+ characters with no line terminator and at least one ASCII letter, one digit and one listed special character |
| `AuthValidator.RuleImpliesMinLength` | Backend/utils/authValidator.js:8 | the rule alone demands length 8 |
| `AuthValidator.AlphanumericRejected` | Backend/utils/authValidator.js:8 | letters and digits alone never satisfy the rule |
| `AuthValidator.LineTerminatorRejected` | Backend/utils/authValidator.js:8 | a line terminator anywhere defeats the rule |
| `AuthValidator.ExampleStrongPassword` | Backend/utils/authValidator.js:8 | "abcdef1!" satisfies the rule |
| `AuthValidator.SignUpPasswordFailures` | Backend/utils/authValidator.js:22-30 | the password has no failed check exactly when the rule holds; the length message appears exactly for fewer than 8 characters, the complexity message exactly when the rule fails |
| `AuthValidator.SignUpIssues` | Backend/utils/authValidator.js:14-31 | every sign-up issue is at path `["name"]`, `["email"]` or `["password"]` |
| `AuthValidator.SignUpSchema` | Backend/utils/authValidator.js:14-31 | `signUpSchema.parse`; no ensures of its own, characterised by `SignUpAcceptance` and `SignUpRejectionEntries` |
| `AuthValidator.SignUpAcceptance` | Backend/utils/authValidator.js:14-31 | a sign-up body passes exactly when the name has 2+ characters, the e-mail is valid and the password follows the rule; `validate` then calls `next()` |
| `AuthValidator.SignUpRejectionEntries` | Backend/utils/authValidator.js:14-31 | a rejected sign-up body answers 400 with the name entries, then the e-mail entries, then the password entries; under each field stand exactly that field's failed checks, in the order the schema runs them |
| `AuthValidator.MinLengthRedundant` | Backend/utils/authValidator.js:22-30 | `.min(8)` never rejects a password the rule accepts; a shorter password fails both checks, length first |
| `AuthValidator.LogInIssues` | Backend/utils/authValidator.js:37-43 | every log-in issue is at path `["email"]` or `["password"]` |
| `AuthValidator.LogInSchema` | Backend/utils/authValidator.js:37-43 | `logInSchema.parse`; no ensures of its own, characterised by `LogInAcceptance` and `LogInRejectionEntries` |
| `AuthValidator.LogInAcceptance` | Backend/utils/authValidator.js:37-43 | a log-in body passes exactly when the e-mail is valid and the password is non-empty, with no complexity check |
| `AuthValidator.LogInRejectionEntries` | Backend/utils/authValidator.js:37-43 | a rejected log-in body answers 400 with the e-mail entries, then the password entries, each carrying that field's failed checks |
| `ValidateInputs.ToEntry` | Backend/Middlewares/validateInputs.js:13-18 | `{ field: issue.path[0], message: issue.message }`; no ensures of its own, characterised by `ToEntries` and `BadRequestMirrorsIssues` |
| `ValidateInputs.ToEntries` | Backend/Middlewares/validateInputs.js:13-18 | one error entry per issue, in issue order, each holding the first path step and the issue message |
| `ValidateInputs.Validate` | Backend/Middlewares/validateInputs.js:4-30 | `next()` receives the original body, and a 400 answer has exactly one entry per issue of the validation error |
| `ValidateInputs.NextKeepsOriginalBody` | Backend/Middlewares/validateInputs.js:8-9 | `next()` is called exactly when parsing succeeds, with the original body and no answer |
| `ValidateInputs.BadRequestMirrorsIssues` | Backend/Middlewares/validateInputs.js:11-21 | a validation error gives 400 with exactly one entry per issue, in order |
| `ValidateInputs.OtherErrorIsInternal` | Backend/Middlewares/validateInputs.js:24-28 | any other failure, and nothing else, gives 500 with the message "Internal Validation Error", and never `next()` |
| `Register.CheckRegistration` | Frontend/src/pages/Register.tsx:16-33 | a submitted request has a name, an e-mail and a password that equals the confirmation and has 6+ characters; a rejection shows one of the three messages |
| `Register.EmptyFieldFirst` | Frontend/src/pages/Register.tsx:20-23 | an empty field gives "All fields are required", whatever else is wrong |
| `Register.MismatchSecond` | Frontend/src/pages/Register.tsx:25-28 | with every field filled, a differing confirmation gives "Passwords do not match" |
| `Register.ShortLast` | Frontend/src/pages/Register.tsx:30-33 | a filled, matching password under 6 characters gives "Password must be at least 6 characters" |
| `Register.SubmitIff` | Frontend/src/pages/Register.tsx:20-51 | a request is made exactly when all three checks pass, carrying name, e-mail and password |
| `Register.ClientLaxerThanSignUpSchema` | Frontend/src/pages/Register.tsx:30-33 | a matching 6- or 7-character password passes the client but fails both sign-up password checks |
| `Register.SignUpRuleImpliesClient` | Frontend/src/pages/Register.tsx:20-33 | a password that satisfies the sign-up schema's rule always passes the client checks |
| `Dashboard.Select` | Frontend/src/pages/Dashboard.tsx:47-53 | each side of the `type === "income"` test holds only rows of that side |
| `Dashboard.Income` | Frontend/src/pages/Dashboard.tsx:44-53 | the sum of the income rows; no ensures of its own, characterised by `TotalsPartition`, `BalanceIsNet` and `Accumulate` |
| `Dashboard.Expense` | Frontend/src/pages/Dashboard.tsx:44-53 | the sum of every other row; no ensures of its own, characterised by `TotalsPartition`, `BalanceIsNet` and `Accumulate` |
| `Dashboard.Net` | Frontend/src/pages/Dashboard.tsx:65 | the signed sum of the amounts; no ensures of its own, characterised by `BalanceIsNet` |
| `Dashboard.SelectPartition` | Frontend/src/pages/Dashboard.tsx:47-53 | the income rows and the expense rows together are exactly the fetched rows |
| `Dashboard.NonIncomeIsExpense` | Frontend/src/pages/Dashboard.tsx:51-52 | a row whose type is not exactly "income" counts as an expense |
| `Dashboard.TotalsPartition` | Frontend/src/pages/Dashboard.tsx:44-53 | income plus expense is the sum of all amounts |
| `Dashboard.BalanceIsNet` | Frontend/src/pages/Dashboard.tsx:65 | income minus expense is the signed sum of the amounts |
| `Dashboard.EmptyListTotals` | Frontend/src/pages/Dashboard.tsx:44-45 | an empty list gives zero income, expense and balance |
| `Dashboard.Accumulate` | Frontend/src/pages/Dashboard.tsx:44-53 | the loop's accumulators end as the income and expense totals |
| `Dashboard.FailureMessage` | Frontend/src/pages/Dashboard.tsx:59 | the error shown is never empty: the server's message when it has one, otherwise "Failed to load transactions" |
| `Dashboard.DashboardPage.Balance` | Frontend/src/pages/Dashboard.tsx:65 | income minus expense; no ensures of its own, `FetchTransactions` proves it equal to `Net` of the loaded rows |
| `Dashboard.DashboardPage.FetchTransactions` | Frontend/src/pages/Dashboard.tsx:24-63 | a loaded list replaces the rows and sets the totals (their sum is the total amount, the balance the signed sum); a failed fetch leaves rows and totals alone and sets the server's message or "Failed to load transactions" |
| `Dashboard.DashboardPage.constructor` | Frontend/src/pages/Dashboard.tsx:13-18 | the page starts with no rows, zero totals and no error |
| `Dashboard.Capitalize` | Frontend/src/pages/Dashboard.tsx:152-153 | the label keeps its length and every character after the first; the first is upper-cased |
| `Dashboard.CapitalizeIdempotent` | Frontend/src/pages/Dashboard.tsx:152-153 | capitalising twice is capitalising once |
| `AddTransaction.AddTransactionPage.constructor` | Frontend/src/pages/AddTransaction.tsx:17-30 | the page starts with empty fields, type "expense", no results and no messages |
| `AddTransaction.Detected` | Frontend/src/pages/AddTransaction.tsx:55 | the reply's `transactions`, or an empty list when it has none; no ensures of its own, used by `AnalyzeText` |
| `AddTransaction.AddTransactionPage.AnalyzeText` | Frontend/src/pages/AddTransaction.tsx:32-69 | whitespace-only text sets "Please enter some text", sends nothing and keeps the results; otherwise the text is sent, and the results are the detected list, or empty with "AI analysis failed" or "AI could not detect transactions"; nothing is saved |
| `AddTransaction.AddTransactionPage.ClearAI` | Frontend/src/pages/AddTransaction.tsx:71-74 | results and text are emptied; nothing else changes |
| `AddTransaction.AddTransactionPage.SaveAITransactions` | Frontend/src/pages/AddTransaction.tsx:76-110 | the pending results are sent unchanged; success empties them and the text, failure keeps them and sets "Failed to save AI transactions" |
| `AddTransaction.AddTransactionPage.HandleSubmit` | Frontend/src/pages/AddTransaction.tsx:112-159 | while results are pending nothing changes and nothing is sent; an empty amount, category or date gives "All fields are required"; otherwise the entry is sent and a successful save clears the three fields |
| `AddTransaction.ReviewBlocksManualSave` | Frontend/src/pages/AddTransaction.tsx:115 | after an analysis detects something, manual submit sends nothing; after clearing it sends again |

## Left out

- `insertBulkTransactions` and `fetchAllTransactions` are routed in Backend/Routes/transactionRoutes.js but are not part of this model: they are not defined in the files modelled here. So there is no batch ingestion, all-or-nothing commit or normalisation here.
- `transactionValidator`, `insertBulkTransactionsValidator` and `aiValidator` are not part of this model either, for the same reason.
- No route shown applies `validate(signUpSchema)` or `validate(logInSchema)`: Backend/Routes/authRoutes.js:11-12 send /login and /signup straight to the controller. The schema lemmas describe what the schemas would do where mounted.
- Backend/Controllers/authController.js is out of scope: password hashing, token signing and the user lookup. Its `logIn` is routed but not defined.
- The route files and server.js are left out because they are wiring only. server.js never mounts the AI router.
- Backend/Database/ConnectDB.js is left out because it is connection I/O only.
- Backend/Schema/BudgetSchema.js is left out because nothing uses it.
- Login.tsx, App.tsx and Navbar.tsx are left out: they are rendering, routing and local storage.
- External calls are parameters:
  - the language-model call;
  - `JSON.parse`;
  - `jwt.verify`;
  - the schema library's e-mail check;
  - `Number(amount)`;
  - every HTTP request's outcome;
  - the clock.
- Mongoose's type casting is not modelled. For example, the string "12" is cast to the number 12. Body fields arrive already typed, and a field that is `null` counts the same as one that is missing.
- Document ids are a counter in the store. Mongoose's ObjectIds are left out.
- Amounts are real numbers. Floating-point rounding, `NaN` and infinities are left out, and so is the order-dependence of float sums.
- String lengths count code points. JavaScript counts UTF-16 code units, so characters outside the Basic Multilingual Plane count once here and twice in the source. This affects the zod `.min` checks and the client length checks.
- A model reply whose `content` is `null` is not a separate case. It takes the same path as the reply text "null", which ends in 500.
- A request body without `text` is left out. The source would put "undefined" into the prompt.
- The model assumes zod 3's issue messages: a missing string field gives "Required". Zod 4 words that issue differently, and no file modelled here fixes the version. The exact messages in `AuthValidator.SignUpRejectionEntries` and `AuthValidator.LogInRejectionEntries` depend on this.
- Zod's issues for body fields that are present but not strings are left out. A missing field gives the issue message "Required".
- Loading flags, JSX, CSS, the `setTimeout` navigation and the order of async steps are left out.
- The form's input handlers are plain field assignments, and the model does not write them as methods.
- `Dashboard.Capitalize`: upper-cases ASCII letters only. JavaScript's full Unicode case mapping is left out. That mapping can change the length, for example "ß" becomes "SS".
- When the verified payload is falsy, for example a token signed over an empty string, the middleware neither answers nor calls `next()`. The model keeps this as the `NoReply` outcome.
