/** The local fallback classifiers of the fraud-detection service: `mockScanMessage` for message
    text and `mockLoanAppAnalysis` for loan-app names. Both lowercase their input and apply an
    ordered keyword rule table in which the first matching rule decides. */
module FraudDetection {
  import opened Wrappers
  import opened Text

  /** `RiskLevel`; the tiers are ordered low < medium < high. */
  datatype RiskLevel = Low | Medium | High

  function Rank(r: RiskLevel): nat {
    match r
    case Low => 0
    case Medium => 1
    case High => 2
  }

  /** `ScanResult`; `indicators` and `blockRecommended` are optional fields. */
  datatype ScanResult = ScanResult(
    risk: RiskLevel,
    message: string,
    indicators: Option<seq<string>>,
    blockRecommended: Option<bool>)

  /** The `appDetails` record of a `LoanAppAnalysis`. */
  datatype AppDetails = AppDetails(name: string, permissions: string, reviews: string, policies: string)

  /** `LoanAppAnalysis`: the fields of `ScanResult` plus the optional `appDetails`. */
  datatype LoanAppAnalysis = LoanAppAnalysis(
    risk: RiskLevel,
    message: string,
    indicators: Option<seq<string>>,
    blockRecommended: Option<bool>,
    appDetails: Option<AppDetails>)

  const HighScanMessage := "HIGH RISK! Fraudulent loan scam detected. DO NOT CLICK!"
  const HighScanIndicators := ["Promises instant money", "No verification mentioned", "Suspicious link"]
  const MediumScanMessage := "Potential risk detected. Be cautious with links or attachments."
  const MediumScanIndicators := ["Contains suspicious link", "Asks for action"]
  const LowScanMessage := "No fraudulent content detected. This message appears safe."

  const HighAppMessage := "90% users reported scams – DO NOT USE!"
  const MediumAppMessage := "Some concerning reports found - proceed with caution"
  const LowAppMessage := "This app appears to be legitimate and safe to use"

  const HighAppPermissions := "Requests excessive access to contacts, SMS, and storage"
  const HighAppReviews := "Multiple users report hidden charges and identity theft"
  const HighAppPolicies := "Hidden terms allow them to access your personal data"
  const MediumAppPermissions := "Requests access to contacts and SMS messages"
  const MediumAppReviews := "Mixed reviews with some complaints about hidden fees"
  const MediumAppPolicies := "Some terms could allow data sharing with third parties"
  const LowAppPermissions := "Requests only necessary permissions"
  const LowAppReviews := "Positive reviews with legitimate loan services"
  const LowAppPolicies := "Clear and transparent terms and conditions"

  /** The fixed texts each app-name tier carries. */
  function AppMessage(r: RiskLevel): string {
    match r
    case High => HighAppMessage
    case Medium => MediumAppMessage
    case Low => LowAppMessage
  }

  function AppPermissions(r: RiskLevel): string {
    match r
    case High => HighAppPermissions
    case Medium => MediumAppPermissions
    case Low => LowAppPermissions
  }

  function AppReviews(r: RiskLevel): string {
    match r
    case High => HighAppReviews
    case Medium => MediumAppReviews
    case Low => LowAppReviews
  }

  function AppPolicies(r: RiskLevel): string {
    match r
    case High => HighAppPolicies
    case Medium => MediumAppPolicies
    case Low => LowAppPolicies
  }

  // ---------------------------------------------------------------------------------------------
  // The rule tables, stated over occurrences in the lowercased text

  /** The lowercased `text` has `word` as a substring. */
  ghost predicate Mentions(text: string, word: string) {
    exists i :: OccursAt(ToLower(text), word, i)
  }

  /** The message rule for high risk: a loan offered together with urgency or a link. */
  ghost predicate LoanScamRule(message: string) {
    Mentions(message, "loan")
    && (Mentions(message, "instant") || Mentions(message, "no verification")
        || Mentions(message, "quick") || Mentions(message, "click"))
  }

  /** The message rule for medium risk: a link or a request for verification. */
  ghost predicate SuspiciousLinkRule(message: string) {
    Mentions(message, "click here") || Mentions(message, "http") || Mentions(message, "verification")
  }

  /** The app-name rule for high risk. */
  ghost predicate FastMoneyRule(appName: string) {
    Mentions(appName, "quick") || Mentions(appName, "cash") || Mentions(appName, "fast")
  }

  /** The app-name rule for medium risk. */
  ghost predicate LendingRule(appName: string) {
    Mentions(appName, "loan") || Mentions(appName, "credit") || Mentions(appName, "money")
  }

  /** Tier `t`'s rule fires on `message` (the low tier is the catch-all). */
  ghost predicate MessageTierMatches(message: string, t: RiskLevel) {
    match t
    case High => LoanScamRule(message)
    case Medium => SuspiciousLinkRule(message)
    case Low => true
  }

  /** Tier `t`'s rule fires on `appName` (the low tier is the catch-all). */
  ghost predicate AppTierMatches(appName: string, t: RiskLevel) {
    match t
    case High => FastMoneyRule(appName)
    case Medium => LendingRule(appName)
    case Low => true
  }

  // ---------------------------------------------------------------------------------------------
  // The classifiers

  /** `mockScanMessage`. */
  function MockScanMessage(message: string): (r: ScanResult)
    ensures r.risk == High <==> LoanScamRule(message)
    ensures r.risk == Medium <==> !LoanScamRule(message) && SuspiciousLinkRule(message)
    ensures r.risk == Low <==> !LoanScamRule(message) && !SuspiciousLinkRule(message)
    ensures r.blockRecommended == Some(r.risk == High)
  {
    var lower := ToLower(message);
    if Contains(lower, "loan")
       && (Contains(lower, "instant") || Contains(lower, "no verification")
           || Contains(lower, "quick") || Contains(lower, "click")) then
      ScanResult(High, HighScanMessage, Some(HighScanIndicators), Some(true))
    else if Contains(lower, "click here") || Contains(lower, "http") || Contains(lower, "verification") then
      ScanResult(Medium, MediumScanMessage, Some(MediumScanIndicators), Some(false))
    else
      ScanResult(Low, LowScanMessage, None, Some(false))
  }

  /** `mockLoanAppAnalysis`. */
  function MockLoanAppAnalysis(appName: string): (r: LoanAppAnalysis)
    ensures r.risk == High <==> FastMoneyRule(appName)
    ensures r.risk == Medium <==> !FastMoneyRule(appName) && LendingRule(appName)
    ensures r.risk == Low <==> !FastMoneyRule(appName) && !LendingRule(appName)
    ensures r.blockRecommended == Some(r.risk == High)
    ensures r.appDetails.Some? && r.appDetails.value.name == appName
  {
    var lower := ToLower(appName);
    var risk :=
      if Contains(lower, "quick") || Contains(lower, "cash") || Contains(lower, "fast") then High
      else if Contains(lower, "loan") || Contains(lower, "credit") || Contains(lower, "money") then Medium
      else Low;
    LoanAppAnalysis(risk, AppMessage(risk), None, Some(risk == High),
                    Some(AppDetails(appName, AppPermissions(risk), AppReviews(risk), AppPolicies(risk))))
  }

  // ---------------------------------------------------------------------------------------------
  // Properties of the message classifier

  /** Each tier carries its fixed message and indicator list; only the low tier omits the list. */
  lemma ScanMessagePayload(message: string)
    ensures var r := MockScanMessage(message);
      && (r.risk == High ==> r.message == HighScanMessage && r.indicators == Some(HighScanIndicators))
      && (r.risk == Medium ==> r.message == MediumScanMessage && r.indicators == Some(MediumScanIndicators))
      && (r.risk == Low ==> r.message == LowScanMessage && r.indicators == None)
  {
  }

  /** First match wins, and because the rules are listed from the most severe down, the verdict is
      the most severe tier whose rule fires. */
  lemma ScanPicksMostSevereTier(message: string)
    ensures MessageTierMatches(message, MockScanMessage(message).risk)
    ensures forall t :: MessageTierMatches(message, t) ==> Rank(t) <= Rank(MockScanMessage(message).risk)
  {
  }

  /** Only the lowercased copy is inspected, so the verdict ignores letter case. */
  lemma ScanMessageIgnoresCase(message: string)
    ensures MockScanMessage(ToLower(message)) == MockScanMessage(message)
  {
    ToLowerIdempotent(message);
  }

  /** "no verification" without "loan" is medium: "verification" occurs inside it. */
  lemma NoVerificationWithoutLoanIsMedium(message: string)
    requires Mentions(message, "no verification") && !Mentions(message, "loan")
    ensures MockScanMessage(message).risk == Medium
  {
    var i :| OccursAt(ToLower(message), "no verification", i);
    assert OccursAt("no verification", "verification", 3);
    OccursWithin(ToLower(message), "no verification", "verification", i, 3);
  }

  /** A loan offer with "click here" is high even though it also fires the medium rule. */
  lemma LoanWithClickHereIsHigh(message: string)
    requires Mentions(message, "loan") && Mentions(message, "click here")
    ensures MockScanMessage(message).risk == High
    ensures SuspiciousLinkRule(message)
  {
    var i :| OccursAt(ToLower(message), "click here", i);
    assert OccursAt("click here", "click", 0);
    OccursWithin(ToLower(message), "click here", "click", i, 0);
  }

  /** A plain greeting is low risk with no indicators. */
  lemma GreetingIsLow(message: string)
    requires message == "Hello, how are you?"
    ensures MockScanMessage(message) == ScanResult(Low, LowScanMessage, None, Some(false))
  {
    var lower := ToLower(message);
    assert lower == "hello, how are you?";
    GreetingLacks(lower, "loan");
    GreetingLacks(lower, "click here");
    GreetingLacks(lower, "http");
    GreetingLacks(lower, "verification");
  }

  lemma GreetingLacks(lower: string, word: string)
    requires lower == "hello, how are you?"
    requires word == "loan" || word == "click here" || word == "http" || word == "verification"
    ensures !Contains(lower, word)
  {
    if word == "loan" {
      MissingCharNotContained(lower, word, 3);
    } else if word == "click here" {
      MissingCharNotContained(lower, word, 4);
    } else if word == "http" {
      MissingCharNotContained(lower, word, 1);
    } else {
      MissingCharNotContained(lower, word, 4);
    }
  }

  // ---------------------------------------------------------------------------------------------
  // Properties of the loan-app classifier

  /** Each tier carries its fixed message and detail texts, and no indicator list. */
  lemma LoanAppPayload(appName: string)
    ensures var r := MockLoanAppAnalysis(appName);
      && r.indicators == None
      && r.appDetails == Some(AppDetails(appName, AppPermissions(r.risk), AppReviews(r.risk), AppPolicies(r.risk)))
      && r.message == AppMessage(r.risk)
  {
  }

  /** The verdict is the most severe tier whose rule fires. */
  lemma LoanAppPicksMostSevereTier(appName: string)
    ensures AppTierMatches(appName, MockLoanAppAnalysis(appName).risk)
    ensures forall t :: AppTierMatches(appName, t) ==> Rank(t) <= Rank(MockLoanAppAnalysis(appName).risk)
  {
  }

  /** Letter case changes nothing but the echoed name. */
  lemma LoanAppIgnoresCase(appName: string)
    ensures MockLoanAppAnalysis(ToLower(appName)) ==
            MockLoanAppAnalysis(appName).(appDetails := Some(MockLoanAppAnalysis(appName).appDetails.value.(name := ToLower(appName))))
  {
    ToLowerIdempotent(appName);
  }

  /** A name hitting both keyword lists is high: the fast-money rule is checked first. */
  lemma QuickLoanIsHigh(name: string)
    requires name == "QuickLoan"
    ensures LendingRule(name) && MockLoanAppAnalysis(name).risk == High
  {
    var lower := ToLower(name);
    LowerCaseOf(name, "quickloan");
    assert lower[..5] == "quick" && lower[5..] == "loan";
    assert OccursAt(lower, "quick", 0) && OccursAt(lower, "loan", 5);
  }

  lemma QuickCashIsHigh(name: string)
    requires name == "QuickCash123"
    ensures MockLoanAppAnalysis(name).risk == High
  {
    var lower := ToLower(name);
    LowerCaseOf(name, "quickcash123");
    assert lower[..5] == "quick";
    assert OccursAt(lower, "quick", 0);
  }

  /** Lowercasing the example names. */
  lemma LowerCaseOf(name: string, lower: string)
    requires (name == "QuickCash123" && lower == "quickcash123") || (name == "QuickLoan" && lower == "quickloan")
    ensures ToLower(name) == lower
  {
  }

  lemma MyLoanHelperIsMedium(name: string)
    requires name == "MyLoanHelper"
    ensures MockLoanAppAnalysis(name).risk == Medium
  {
    var lower := ToLower(name);
    assert lower == "myloanhelper";
    MyLoanHelperLacks(lower, "quick");
    MyLoanHelperLacks(lower, "cash");
    MyLoanHelperLacks(lower, "fast");
    MyLoanHelperHasLoan(lower);
  }

  lemma MyLoanHelperHasLoan(lower: string)
    requires lower == "myloanhelper"
    ensures Contains(lower, "loan")
  {
    assert lower[2..6] == "loan";
    assert OccursAt(lower, "loan", 2);
  }

  lemma MyLoanHelperLacks(lower: string, word: string)
    requires lower == "myloanhelper"
    requires word == "quick" || word == "cash" || word == "fast"
    ensures !Contains(lower, word)
  {
    MissingCharNotContained(lower, word, 0);
  }

  lemma SafeFinanceIsLow(name: string)
    requires name == "SafeFinance"
    ensures MockLoanAppAnalysis(name).risk == Low
  {
    var lower := ToLower(name);
    assert lower == "safefinance";
    SafeFinanceLacks(lower, "quick");
    SafeFinanceLacks(lower, "cash");
    SafeFinanceLacks(lower, "fast");
    SafeFinanceLacks(lower, "loan");
    SafeFinanceLacks(lower, "credit");
    SafeFinanceLacks(lower, "money");
  }

  lemma SafeFinanceLacks(lower: string, word: string)
    requires lower == "safefinance"
    requires word in ["quick", "cash", "fast", "loan", "credit", "money"]
    ensures !Contains(lower, word)
  {
    if word == "cash" || word == "fast" {
      MissingCharNotContained(lower, word, 3);
    } else if word == "credit" {
      MissingCharNotContained(lower, word, 1);
    } else {
      MissingCharNotContained(lower, word, 0);
    }
  }
}
