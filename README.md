# ScamShield rule core in Dafny

ScamShield is a React front end for spotting scams. Almost all of it is presentation. Its
decisions come from a few fixed, rule-based classifiers and validators over strings, and this
project models those rules and proves properties of them:

- **The mock fraud-detection service** (`fraud_detection.dfy`, module `FraudDetection`).
  - `mockScanMessage` lowercases a message and applies an ordered keyword rule set to give a
    `ScanResult`: a risk tier, a headline, optional indicators and `blockRecommended`.
  - `mockLoanAppAnalysis` does the same for a loan-app name and attaches a fixed
    permissions/reviews/policies triple to each tier.
  - Both are pure functions. Each tier is characterised by ghost predicates over substring
    occurrence, so the rules are stated independently of the `includes` calls that implement them.
- **The loan-app checker panel** (`loan_app_checker.dfy`, module `LoanAppChecker`).
  - Its check handler has a blank-input guard and a timer callback. The callback classifies the
    typed name with an inline copy of the service's rule. The model proves that this copy agrees
    with the service on every name.
  - Also modelled: the badge labels, the icon colours, and the component's own class-name helper
    `cn`. See "Findings".
- **The phone-number lookup panel** (`phone_number_lookup.dfy`, module `PhoneNumberLookup`).
  - Its handler has a blank-input guard that raises an error toast.
  - The timer callback decides the caller information from the suffix ("999"/"000") and length
    thresholds (> 8, > 9). It draws one `Math.random()` value.
  - Also modelled: the rules that render the result.
- **The login form** (`login.dfy`, module `Login`).
  - `handleLogin` validates into an `errors` record: a required email, the email pattern
    `\S+@\S+\.\S+` searched anywhere in the text, then a required password.
  - The callback then compares the entry with the fixed demo credentials.
- **String support** (`text.dfy`, modules `Wrappers` and `Text`): the JavaScript string
  operations the rules use. These are `toLowerCase` on ASCII, `includes`, `endsWith`, `trim`,
  `join` and decimal rendering.
  - `join` is characterised through its inverse `Split`, by `SplitJoin`. The source never calls
    `split`.
  - Decimal rendering is characterised through its inverse `ParseDecimal`, by
    `ParseDecimalString`.

How the React components are modelled:

- Each component becomes a class. Its `useState` variables are fields and its handlers are
  methods.
- A `setTimeout` callback becomes a separate method. The handler returns the value the closure
  captured, as an `Option` (`None` when the handler returned early). The callback method takes
  that value.
- The `...Session` methods run a handler and its callback on a fresh component, with the given
  field values as the values the handler reads. They state the outcome of that run.
- `Math.random()` becomes a `real` parameter in `[0, 1)`.
- Toasts, navigation and the toast text shown become a log field or out-parameters.

The low tier of `mockScanMessage` has no `indicators` field
(src/services/fraudDetectionService.ts:182-186), so the model has `indicators == None`.

## Model

| member | source | states |
|---|---|---|
| Text.ToLower | src/services/fraudDetectionService.ts:158 | lowercasing keeps the length and maps every ASCII capital to its small letter, leaving other characters alone |
| Text.ToLowerIdempotent | src/services/fraudDetectionService.ts:190 | lowercasing an already lowercased string changes nothing |
| Text.ToLowerHasNoUpper | src/services/fraudDetectionService.ts:158 | the lowercased text has no ASCII capital left |
| Text.Contains | src/services/fraudDetectionService.ts:160-173 | `includes` holds exactly when the word occurs at some index of the text |
| Text.MissingCharNotContained | src/services/fraudDetectionService.ts:192-208 | a text lacking one character of a word does not include that word |
| Text.OccursWithin | src/services/fraudDetectionService.ts:162-173 | an occurrence of a word inside an occurrence of a longer word is an occurrence in the text |
| Text.TrimStart | components/LoanAppChecker.tsx:27 | `trim` removes exactly the leading whitespace, and the result starts with non-whitespace or is empty |
| Text.TrimEnd | components/LoanAppChecker.tsx:27 | `trim` removes exactly the trailing whitespace, and the result ends with non-whitespace or is empty |
| Text.EndsWith | components/PhoneNumberLookup.tsx:44-51 | `endsWith` holds exactly when the suffix occurs at the last possible index, so the text then includes it |
| Text.Trim | components/LoanAppChecker.tsx:27 | `trim` gives a substring of the text that neither starts nor ends with whitespace, with only whitespace before and after it |
| Text.IsBlank | components/PhoneNumberLookup.tsx:27 | `!s.trim()` holds for the empty text and fails for a text that starts or ends with a non-whitespace character |
| Text.BlankIffAllWhitespace | components/PhoneNumberLookup.tsx:27 | `!s.trim()` holds exactly when every character of `s` is whitespace |
| Text.Join | components/LoanAppChecker.tsx:180 | `join` of no parts is empty; otherwise the result starts with the first part, a separator follows it when there are more, and a non-empty first part gives a non-empty result |
| Text.SplitJoin | components/LoanAppChecker.tsx:180 | splitting a space-joined list on spaces gives the list back when no item holds a space |
| Text.ParseDecimalString | components/PhoneNumberLookup.tsx:114 | the decimal text of a count reads back as that count |
| FraudDetection.MockScanMessage | src/services/fraudDetectionService.ts:157-187 | high exactly when the text mentions "loan" and one of "instant", "no verification", "quick", "click"; medium exactly when that fails and "click here", "http" or "verification" is mentioned; low otherwise; `blockRecommended` is true exactly for high |
| FraudDetection.ScanMessagePayload | src/services/fraudDetectionService.ts:165-186 | high and medium carry their fixed headline and indicator lists; low carries the "No fraudulent content detected" headline and no indicators |
| FraudDetection.ScanPicksMostSevereTier | src/services/fraudDetectionService.ts:160-180 | first match wins: the verdict's rule fires, and no more severe tier's rule fires |
| FraudDetection.ScanMessageIgnoresCase | src/services/fraudDetectionService.ts:158 | classifying the lowercased message gives the same result as classifying the message |
| FraudDetection.NoVerificationWithoutLoanIsMedium | src/services/fraudDetectionService.ts:160-173 | a message with "no verification" and without "loan" is medium, through "verification" |
| FraudDetection.LoanWithClickHereIsHigh | src/services/fraudDetectionService.ts:160-173 | "loan" with "click here" is high although the medium rule fires too |
| FraudDetection.GreetingIsLow | src/services/fraudDetectionService.ts:182-186 | "Hello, how are you?" gives the low result with no indicators |
| FraudDetection.MockLoanAppAnalysis | src/services/fraudDetectionService.ts:189-233 | high exactly when the name mentions "quick", "cash" or "fast"; medium exactly when that fails and "loan", "credit" or "money" is mentioned; low otherwise; `blockRecommended` exactly for high; `appDetails.name` is the name as given |
| FraudDetection.LoanAppPayload | src/services/fraudDetectionService.ts:195-232 | each tier carries its fixed headline and details triple, the unlowercased name, and no indicators |
| FraudDetection.LoanAppPicksMostSevereTier | src/services/fraudDetectionService.ts:192-222 | the verdict's rule fires, and no more severe tier's rule fires |
| FraudDetection.LoanAppIgnoresCase | src/services/fraudDetectionService.ts:190-199 | the lowercased name gives the same analysis except for the echoed name |
| FraudDetection.QuickLoanIsHigh | src/services/fraudDetectionService.ts:192-208 | "QuickLoan" fires both keyword lists and is high |
| FraudDetection.QuickCashIsHigh | src/services/fraudDetectionService.ts:192-205 | "QuickCash123" is high |
| FraudDetection.MyLoanHelperIsMedium | src/services/fraudDetectionService.ts:206-219 | "MyLoanHelper" is medium |
| FraudDetection.SafeFinanceIsLow | src/services/fraudDetectionService.ts:222-232 | "SafeFinance" is low |
| LoanAppChecker.CheckDecision | components/LoanAppChecker.tsx:35-72 | the inline rule agrees with `mockLoanAppAnalysis` on tier, headline and all three detail texts for every name, and keeps the name as typed |
| LoanAppChecker.Checker.constructor | components/LoanAppChecker.tsx:22-24 | empty name, not checking, no result |
| LoanAppChecker.Checker.SetAppName | components/LoanAppChecker.tsx:96 | the field takes the typed text and nothing else changes |
| LoanAppChecker.Checker.HandleCheck | components/LoanAppChecker.tsx:26-31 | a blank name changes nothing and schedules nothing; otherwise `checking` is set and the name as typed is captured; an enabled button always schedules |
| LoanAppChecker.Checker.CompleteCheck | components/LoanAppChecker.tsx:31-76 | the result is the decision for the captured name and `checking` is false |
| LoanAppChecker.CheckSession | components/LoanAppChecker.tsx:26-77 | a blank name leaves no result; any other ends with a result for exactly that name, with the service's tier |
| LoanAppChecker.BadgeLabel | components/LoanAppChecker.tsx:143 | the badge text is non-empty and reads back as the tier it shows |
| LoanAppChecker.RiskIconColor | components/LoanAppChecker.tsx:79-82 | the icon colour is empty exactly when there is no result; with a result it is green exactly for low, yellow exactly for medium and red exactly for high |
| LoanAppChecker.BadgeLabelRoundTrip | components/LoanAppChecker.tsx:143 | "Safe", "Risky" and "Dangerous" name low, medium and high one to one |
| LoanAppChecker.IconColorByTier | components/LoanAppChecker.tsx:79-82 | no colour without a result; a colour per tier, equal exactly for equal tiers |
| LoanAppChecker.ShowsCheckIcon | components/LoanAppChecker.tsx:126-130 | the check mark shows exactly when the icon colour is green |
| LoanAppChecker.TruthyRendered | components/LoanAppChecker.tsx:180 | `filter(Boolean)` keeps no more arguments than it is given, never an empty one, and always keeps an object, which renders as "[object Object]" |
| LoanAppChecker.CnAsWritten | components/LoanAppChecker.tsx:179-181 | `cn` returns the empty string exactly when no argument survives the filter, and never once an object is passed |
| LoanAppChecker.ClassNames | components/LoanAppChecker.tsx:117-123 | the corrected helper returns the empty string exactly when no class name is active |
| LoanAppChecker.ActiveNamesExactly | components/LoanAppChecker.tsx:117-123 | the corrected helper's class names are exactly the non-empty string arguments and the keys whose condition holds; a key whose condition fails is left out |
| LoanAppChecker.TruthyRenderedStrings | components/LoanAppChecker.tsx:179-181 | on string arguments the filter keeps a string exactly when it is a non-empty argument, keeps them in order, and agrees with the corrected helper |
| LoanAppChecker.CnSplitsIntoNonEmptyArguments | components/LoanAppChecker.tsx:179-181 | for space-free string arguments, splitting `cn`'s output on spaces gives the non-empty arguments back, and the corrected helper agrees with `cn` |
| LoanAppChecker.CnIgnoresConditions | components/LoanAppChecker.tsx:117-123 | as written, an object argument renders as a space and "[object Object]" whatever classes and conditions it holds |
| LoanAppChecker.PanelClassByTier | components/LoanAppChecker.tsx:117-123 | corrected, the panel's classes are its base classes, a space and exactly its tier's colour pair |
| LoanAppChecker.DangerousPanelColors | components/LoanAppChecker.tsx:116-124 | as written, a high result's panel lacks its red classes; corrected, its classes are the base classes and the red pair, with no other colour pair |
| LoanAppChecker.BadgeClassByTier | components/LoanAppChecker.tsx:135-142 | corrected, the badge's classes are its base classes, a space and exactly its tier's colour pair |
| LoanAppChecker.BadgeIgnoresTier | components/LoanAppChecker.tsx:135-142 | as written, every tier gets the same badge classes; corrected, a safe result's badge has the green pair and no other colour pair |
| LoanAppChecker.ClassNamesKeepsActiveKey | components/LoanAppChecker.tsx:117-123 | the corrected helper includes every class whose condition holds |
| PhoneNumberLookup.RandomReportCount | components/PhoneNumberLookup.tsx:61 | `Math.floor(random * 5)` lies in 0..4 and is the floor of `random * 5` |
| PhoneNumberLookup.LookupResult | components/PhoneNumberLookup.tsx:44-64 | a number is suspicious exactly when it ends in "999", or is longer than nine characters without ending in "000"; it has reports only if it ends in "999" or is longer than eight characters |
| PhoneNumberLookup.ScamSuffixRule | components/PhoneNumberLookup.tsx:44-50 | a number ending in "999" is "Unknown", 47 reports, suspicious, tagged Scam, Fraud, Impersonation |
| PhoneNumberLookup.BankSuffixRule | components/PhoneNumberLookup.tsx:51-57 | a number ending in "000" is the official bank, 0 reports, not suspicious, tagged Verified, Financial Institution |
| PhoneNumberLookup.OtherNumberRule | components/PhoneNumberLookup.tsx:58-64 | any other number is "Unknown Caller"; suspicious, and tagged Suspicious and Telemarketing, exactly when longer than 9; tagged Unverified exactly otherwise; no reports up to length 8, else the drawn count in 0..4 |
| PhoneNumberLookup.LookupResultBounds | components/PhoneNumberLookup.tsx:44-64 | every result has between 0 and 47 reports and at least one tag |
| PhoneNumberLookup.NineDigitsReportedButNotSuspicious | components/PhoneNumberLookup.tsx:61-62 | a nine-character number can have reports and still not be suspicious |
| PhoneNumberLookup.TrailingSpaceHidesSuffix | components/PhoneNumberLookup.tsx:44-63 | the suffix tests use the raw text: "123999 " falls through to the short-number outcome |
| PhoneNumberLookup.Lookup.constructor | components/PhoneNumberLookup.tsx:21-23 | empty number, not looking up, no information, no toast |
| PhoneNumberLookup.Lookup.SetPhoneNumber | components/PhoneNumberLookup.tsx:84 | the field takes the typed text and nothing else changes |
| PhoneNumberLookup.Lookup.LookupPhoneNumber | components/PhoneNumberLookup.tsx:26-37 | a blank number adds the error toast and changes nothing else; otherwise the old information is cleared, `isLookingUp` is set and the number as typed is captured |
| PhoneNumberLookup.Lookup.ShowInvalidNumberToast | components/PhoneNumberLookup.tsx:28-32 | the "Error" / "Please enter a valid phone number" / "destructive" toast joins the log of those shown and nothing else changes |
| PhoneNumberLookup.Lookup.CompleteLookup | components/PhoneNumberLookup.tsx:40-66 | `isLookingUp` is false and the information is the decision for the captured number and drawn value |
| PhoneNumberLookup.LookupSession | components/PhoneNumberLookup.tsx:26-67 | a blank number ends with the error toast and no information; any other ends with its decision and no toast |
| PhoneNumberLookup.ReportText | components/PhoneNumberLookup.tsx:113-115 | the line is "No reports found" exactly when there are no reports, and otherwise ends with " users reported this number" |
| PhoneNumberLookup.ReportTextShowsCount | components/PhoneNumberLookup.tsx:113-115 | "No reports found" exactly when there are no reports; otherwise the text is digits reading back as the count, then " users reported this number" |
| PhoneNumberLookup.StatusBadge | components/PhoneNumberLookup.tsx:118-120 | the badge reads "Suspicious" exactly for a suspicious number and "Verified" exactly otherwise |
| PhoneNumberLookup.DisplayRules | components/PhoneNumberLookup.tsx:106-123 | the badge reads "Verified" exactly when the "Safe" pill shows and "Suspicious" exactly for suspicious numbers; every result shows its tag row |
| Login.EmailFormatOk | src/pages/Login.tsx:42 | a text that passes the format test has at least five characters, with an `@` after its first character and a `.` at least two characters later and before its last character |
| Login.EmailFormatIsPatternSearch | src/pages/Login.tsx:42 | the positional format test holds exactly when some substring matches `\S+@\S+\.\S+` |
| Login.PatternIsUnanchored | src/pages/Login.tsx:42 | text around an address that passes does not make it fail: the pattern is searched, not anchored |
| Login.DemoEmailWellFormed | src/pages/Login.tsx:42 | "demo@example.com" passes the format test |
| Login.EmailError | src/pages/Login.tsx:39-45 | "Email is required" exactly for the empty email; "Please enter a valid email" exactly for a non-empty email failing the format test; no error otherwise |
| Login.PasswordError | src/pages/Login.tsx:47-50 | "Password is required" exactly for the empty password; no error otherwise |
| Login.ValidationErrors | src/pages/Login.tsx:31-50 | the general error is cleared, and the record is empty exactly when the form is valid |
| Login.NoErrorsIffValid | src/pages/Login.tsx:38-52 | validation leaves no error exactly when the email is non-empty and well formed and the password is non-empty |
| Login.EmptyEmailSkipsFormatCheck | src/pages/Login.tsx:39-43 | an empty email is reported as required, never as malformed |
| Login.InvalidEmailIffPatternMissing | src/pages/Login.tsx:42-43 | the email error is "Please enter a valid email" exactly when a non-empty email has no match of the pattern |
| Login.BothErrorsTogether | src/pages/Login.tsx:39-50 | an empty password is reported whatever the email error, so both errors can show together |
| Login.DemoCredentialsValid | src/pages/Login.tsx:38-63 | the demo credentials pass validation, so the success branch is reachable |
| Login.IsDemo | src/pages/Login.tsx:63 | the one pair the callback accepts passes validation |
| Login.LoginForm.constructor | src/pages/Login.tsx:15-24 | empty fields, not loading, no errors |
| Login.LoginForm.SetEmail | src/pages/Login.tsx:137 | the email field takes the typed text and nothing else changes |
| Login.LoginForm.SetPassword | src/pages/Login.tsx:152 | the password field takes the typed text and nothing else changes |
| Login.LoginForm.HandleLogin | src/pages/Login.tsx:27-55 | errors are reset and then hold exactly the field errors; the callback is scheduled with the entered credentials, and loading begins, exactly when the form is valid; a failure leaves `isLoading` alone |
| Login.LoginForm.CompleteLogin | src/pages/Login.tsx:57-73 | loading ends; the demo pair navigates to "/app" with the success toast and keeps the errors; any other pair sets only the general error and shows the error toast |
| Login.LoginSession | src/pages/Login.tsx:27-74 | run on the given field values, the app opens exactly for the demo credentials; an invalid form ends with its validation errors; a valid form with other credentials ends with only the general error |

## Left out

- The asynchronous service wrappers are not modelled. These are `scanMessage`, `analyzeLoanApp`,
  `analyzeVoiceRecording`, `reportFraud` and `checkApiHealth`. They are network I/O with a
  fallback to the mocks.
- Timer delays are not modelled. Nor are interleavings such as a second click, or typing
  during the delay. Only the state before and after each callback is modelled, and the callback
  receives the value its closure captured.
- Disabled buttons (`disabled={isLoading}`, `disabled={isLookingUp}`) are not modelled as
  preventing clicks. The checker's `CanCheck` only states when its button is enabled.
- Toasts and navigation are foreign library calls. They are modelled only as the toast log,
  the `notice` text and the `route` result.
- The password-visibility toggle, remember-me, the Google login handler and all other pages
  and components are not modelled.
- The real randomness of `Math.random()` is not modelled. The drawn value is a parameter in
  `[0, 1)`.
- Text.ToLower: only ASCII capitals are mapped, so Unicode case mapping is not modelled.
- The whitespace set of `trim` and `\S` is modelled as a fixed list of code points: JavaScript's
  WhiteSpace and LineTerminator characters as of current Unicode.
- `length` is modelled as a count of code points; JavaScript counts UTF-16 code units. Numbers
  containing characters outside the Basic Multilingual Plane would cross the length thresholds
  at different points.
- React batches the successive `setErrors` updater calls. The model applies them as
  successive assignments, which gives the same final record.
- Rendering is modelled only as the decisions it shows: labels, colours, class lists, the icon
  choice, report text, pills and tags. Layout, `RiskMeter` and animation are not modelled.
- LoanAppChecker.ClassNames: class names with an empty key are dropped. This is a corrected
  reading of the call sites, not a model of any particular library.
- Login.LoginSession: the email is the value `handleLogin` reads. The browser's handling of the
  `type="email"` field inside the form (src/pages/Login.tsx:123, 134) is not modelled. That
  handling strips surrounding whitespace from the value, and blocks the submit of a non-empty
  value that is not a valid e-mail address. So " demo@example.com" is a failed login in the model
  but opens the app on the page, and "foo" gets the format error in the model while the page
  never runs the handler.
- Login.LoginForm.SetEmail: the field takes the text as given; the whitespace stripping of the
  `type="email"` field is not modelled.

## Findings

| source | as written | input that shows it | evidently intended | confidence | as-written member | corrected member |
|---|---|---|---|---|---|---|
| components/LoanAppChecker.tsx:179-181 | `cn` keeps truthy arguments and joins them with spaces; an object argument is truthy and renders as "[object Object]" | a high-risk result: the panel's class list at lines 117-123 becomes "mt-4 p-4 rounded-lg border [object Object]" with no red classes, and the badge at 135-142 gets the same classes for every tier | the classes whose condition holds are included, the conditional-object convention the call sites are written for | not executed | LoanAppChecker.CnAsWritten, shown by LoanAppChecker.CnIgnoresConditions and LoanAppChecker.DangerousPanelColors | LoanAppChecker.ClassNames, with LoanAppChecker.ActiveNamesExactly and LoanAppChecker.ClassNamesKeepsActiveKey; used by LoanAppChecker.PanelClass and LoanAppChecker.BadgeClass, proved by LoanAppChecker.PanelClassByTier and LoanAppChecker.BadgeClassByTier |
