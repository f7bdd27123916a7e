/** The loan-app checker panel: its check handler (a blank-input guard, then a timer callback
    that classifies the typed name with an inline copy of the service's keyword rule), the
    badge and icon mappings it renders, and its local class-name helper `cn`. */
module LoanAppChecker {
  import opened Wrappers
  import opened Text
  import opened FraudDetection

  /** `AppCheckResult`'s `details` record. */
  datatype Details = Details(permissions: string, reviews: string, policies: string)

  /** `AppCheckResult`: the echoed name, the tier, the headline and the three detail texts. */
  datatype AppCheckResult = AppCheckResult(name: string, risk: RiskLevel, message: string, details: Details)

  // The component repeats the service's texts inline; they are repeated here as well.
  const DangerousMessage := "90% users reported scams – DO NOT USE!"
  const DangerousDetails := Details(
    "Requests excessive access to contacts, SMS, and storage",
    "Multiple users report hidden charges and identity theft",
    "Hidden terms allow them to access your personal data")
  const RiskyMessage := "Some concerning reports found - proceed with caution"
  const RiskyDetails := Details(
    "Requests access to contacts and SMS messages",
    "Mixed reviews with some complaints about hidden fees",
    "Some terms could allow data sharing with third parties")
  const SafeMessage := "This app appears to be legitimate and safe to use"
  const SafeDetails := Details(
    "Requests only necessary permissions",
    "Positive reviews with legitimate loan services",
    "Clear and transparent terms and conditions")

  /** The inline keyword chain of the check callback. It agrees field for field with the
      service's `mockLoanAppAnalysis`, and echoes the name exactly as typed. */
  function CheckDecision(appName: string): (r: AppCheckResult)
    ensures r.name == appName
    ensures var a := MockLoanAppAnalysis(appName);
      && r.risk == a.risk
      && r.message == a.message
      && a.appDetails == Some(AppDetails(r.name, r.details.permissions, r.details.reviews, r.details.policies))
  {
    if Contains(ToLower(appName), "quick") || Contains(ToLower(appName), "cash")
       || Contains(ToLower(appName), "fast") then
      AppCheckResult(appName, High, DangerousMessage, DangerousDetails)
    else if Contains(ToLower(appName), "loan") || Contains(ToLower(appName), "credit")
            || Contains(ToLower(appName), "money") then
      AppCheckResult(appName, Medium, RiskyMessage, RiskyDetails)
    else
      AppCheckResult(appName, Low, SafeMessage, SafeDetails)
  }

  /** The panel's state: the text field, the in-progress flag and the last result (`null` as `None`). */
  class Checker {
    var appName: string
    var checking: bool
    var result: Option<AppCheckResult>

    constructor ()
      ensures appName == "" && !checking && result == None
    {
      appName := "";
      checking := false;
      result := None;
    }

    /** The check button is enabled: the name is not blank and no check is running. */
    predicate CanCheck()
      reads this
    {
      !IsBlank(appName) && !checking
    }

    /** The text field's change handler. */
    method SetAppName(text: string)
      modifies this
      ensures appName == text && checking == old(checking) && result == old(result)
    {
      appName := text;
    }

    /** `handleCheck`: a blank name changes nothing; otherwise the panel shows progress and the
        callback is scheduled with the name as typed, which the returned value carries. */
    method HandleCheck() returns (scheduled: Option<string>)
      modifies this
      ensures appName == old(appName) && result == old(result)
      ensures IsBlank(appName) ==> scheduled == None && checking == old(checking)
      ensures !IsBlank(appName) ==> scheduled == Some(appName) && checking
      ensures old(CanCheck()) ==> scheduled.Some? && !CanCheck()
    {
      if IsBlank(appName) {
        return None;
      }
      checking := true;
      scheduled := Some(appName);
    }

    /** The timer callback of `handleCheck`, run with the name it captured. */
    method CompleteCheck(name: string)
      modifies this
      ensures appName == old(appName)
      ensures !checking && result == Some(CheckDecision(name))
    {
      var demoResult := CheckDecision(name);
      result := Some(demoResult);
      checking := false;
    }
  }

  /** A check of a non-blank name ends with a result for exactly that name and the service's verdict. */
  method CheckSession(name: string) returns (outcome: Option<AppCheckResult>)
    ensures IsBlank(name) ==> outcome == None
    ensures !IsBlank(name) ==> outcome.Some? && outcome.value.name == name
                               && outcome.value.risk == MockLoanAppAnalysis(name).risk
  {
    var checker := new Checker();
    checker.SetAppName(name);
    var scheduled := checker.HandleCheck();
    if scheduled.Some? {
      checker.CompleteCheck(scheduled.value);
      assert !checker.checking;
    }
    outcome := checker.result;
  }

  // ---------------------------------------------------------------------------------------------
  // What the panel renders for a result

  /** The badge text of each tier: a non-empty text that reads back as the tier. */
  function BadgeLabel(risk: RiskLevel): (text: string)
    ensures text != ""
    ensures BadgeRisk(text) == Some(risk)
  {
    match risk
    case Low => "Safe"
    case Medium => "Risky"
    case High => "Dangerous"
  }

  /** The icon colour class; empty while there is no result. */
  function RiskIconColor(result: Option<AppCheckResult>): (color: string)
    ensures color == "" <==> result.None?
    ensures result.Some? ==>
      && (color == "text-green-500" <==> result.value.risk == Low)
      && (color == "text-yellow-500" <==> result.value.risk == Medium)
      && (color == "text-red-500" <==> result.value.risk == High)
  {
    match result
    case None => ""
    case Some(r) =>
      match r.risk
      case Low => "text-green-500"
      case Medium => "text-yellow-500"
      case High => "text-red-500"
  }

  /** Reads a badge text back as its tier. */
  function BadgeRisk(text: string): Option<RiskLevel> {
    if text == "Safe" then Some(Low)
    else if text == "Risky" then Some(Medium)
    else if text == "Dangerous" then Some(High)
    else None
  }

  /** The badge names the tier unambiguously: reading it back gives the tier, and only badge
      texts read back at all. */
  lemma BadgeLabelRoundTrip(risk: RiskLevel, text: string)
    ensures BadgeRisk(BadgeLabel(risk)) == Some(risk)
    ensures BadgeRisk(text) == Some(risk) ==> text == BadgeLabel(risk)
  {
  }

  /** Three distinct colours, green for low, yellow for medium, red for high, and none without a
      result. */
  lemma IconColorByTier(a: AppCheckResult, b: AppCheckResult)
    ensures RiskIconColor(None) == ""
    ensures RiskIconColor(Some(a)) != ""
    ensures RiskIconColor(Some(a)) == RiskIconColor(Some(b)) <==> a.risk == b.risk
  {
  }

  /** A check mark for a safe result, a warning triangle otherwise: the check mark shows exactly
      when the icon is coloured green. */
  predicate ShowsCheckIcon(r: AppCheckResult)
    ensures ShowsCheckIcon(r) <==> RiskIconColor(Some(r)) == "text-green-500"
  {
    r.risk == Low
  }

  // ---------------------------------------------------------------------------------------------
  // The class-name helper

  /** An argument of `cn`: a class string, or an object mapping class names to conditions. */
  datatype ClassValue = ClassString(s: string) | ClassMap(entries: seq<(string, bool)>)

  /** What `inputs.filter(Boolean)` keeps and `join` then renders: non-empty strings as they are,
      every object (always truthy) as `String({})`. */
  function TruthyRendered(inputs: seq<ClassValue>): (r: seq<string>)
    ensures |r| <= |inputs|
    ensures forall x | x in r :: x != ""
    ensures (exists i | 0 <= i < |inputs| :: inputs[i].ClassMap?) ==> "[object Object]" in r
  {
    if inputs == [] then []
    else
      var rest := TruthyRendered(inputs[1..]);
      match inputs[0]
      case ClassString(s) => if s == "" then rest else [s] + rest
      case ClassMap(_) => ["[object Object]"] + rest
  }

  /** `cn` as written: `inputs.filter(Boolean).join(' ')`. The result is empty exactly when no
      argument survives the filter, and never empty once an object is passed. */
  function CnAsWritten(inputs: seq<ClassValue>): (c: string)
    ensures c == "" <==> TruthyRendered(inputs) == []
    ensures (exists i | 0 <= i < |inputs| :: inputs[i].ClassMap?) ==> c != ""
  {
    var parts := TruthyRendered(inputs);
    assert parts != [] ==> parts[0] in parts;
    Join(parts, ' ')
  }

  /** The class names an argument contributes under the conditional-object convention the call
      sites rely on: a non-empty string itself, and the keys of an object whose condition holds. */
  function ActiveNames(inputs: seq<ClassValue>): (r: seq<string>)
    ensures forall x | x in r :: x != ""
    ensures forall x | x in r :: exists i | 0 <= i < |inputs| :: Contributes(inputs[i], x)
  {
    if inputs == [] then []
    else
      var rest := ActiveNames(inputs[1..]);
      match inputs[0]
      case ClassString(s) => (if s == "" then [] else [s]) + rest
      case ClassMap(entries) => ActiveKeys(entries) + rest
  }

  /** The keys of the entries whose condition holds, empty keys left out, in order. */
  function ActiveKeys(entries: seq<(string, bool)>): (r: seq<string>)
    ensures forall x | x in r :: x != ""
    ensures forall k | 0 <= k < |entries| :: entries[k].1 && entries[k].0 != "" ==> entries[k].0 in r
    ensures forall x | x in r :: exists k | 0 <= k < |entries| :: entries[k].1 && entries[k].0 == x
  {
    if entries == [] then []
    else
      var rest := ActiveKeys(entries[1..]);
      assert forall k | 1 <= k < |entries| :: entries[k] == entries[1..][k - 1];
      if entries[0].1 && entries[0].0 != "" then [entries[0].0] + rest else rest
  }

  /** Whether argument `v` makes `x` a class name under the conditional-object convention: `v` is
      the non-empty string `x`, or an object with key `x` whose condition holds. */
  ghost predicate Contributes(v: ClassValue, x: string) {
    match v
    case ClassString(s) => s == x && x != ""
    case ClassMap(entries) => x != "" && exists k | 0 <= k < |entries| :: entries[k] == (x, true)
  }

  /** The corrected helper: joins the active class names with single spaces. */
  function ClassNames(inputs: seq<ClassValue>): (c: string)
    ensures c == "" <==> ActiveNames(inputs) == []
  {
    var names := ActiveNames(inputs);
    assert names != [] ==> names[0] in names;
    Join(names, ' ')
  }

  predicate AllStrings(inputs: seq<ClassValue>) {
    forall k | 0 <= k < |inputs| :: inputs[k].ClassString?
  }

  /** The non-empty strings among string arguments, in order. */
  function NonEmptyStrings(inputs: seq<ClassValue>): (r: seq<string>)
    requires AllStrings(inputs)
  {
    if inputs == [] then []
    else (if inputs[0].s == "" then [] else [inputs[0].s]) + NonEmptyStrings(inputs[1..])
  }

  /** On string arguments the helper as written keeps exactly the non-empty arguments, in order,
      and agrees with the corrected helper. */
  lemma {:induction false} TruthyRenderedStrings(inputs: seq<ClassValue>)
    requires AllStrings(inputs)
    ensures forall x :: x in TruthyRendered(inputs) <==> x != "" && exists k | 0 <= k < |inputs| :: inputs[k].s == x
    ensures TruthyRendered(inputs) == NonEmptyStrings(inputs)
    ensures ActiveNames(inputs) == NonEmptyStrings(inputs)
  {
    NonEmptyStringsFrom(inputs);
    if inputs != [] {
      assert AllStrings(inputs[1..]) by {
        forall k | 0 <= k < |inputs| - 1 ensures inputs[1..][k].ClassString? {
          assert inputs[1..][k] == inputs[k + 1];
        }
      }
      TruthyRenderedStrings(inputs[1..]);
      assert inputs[0].ClassString?;
    }
  }

  /** For string arguments without spaces, splitting the result on spaces gives back exactly the
      non-empty arguments in order: empties are dropped and single spaces separate the rest. */
  lemma CnSplitsIntoNonEmptyArguments(inputs: seq<ClassValue>)
    requires AllStrings(inputs)
    requires forall k | 0 <= k < |inputs| :: ' ' !in inputs[k].s
    requires NonEmptyStrings(inputs) != []
    ensures Split(CnAsWritten(inputs), ' ') == NonEmptyStrings(inputs)
    ensures ClassNames(inputs) == CnAsWritten(inputs)
  {
    TruthyRenderedStrings(inputs);
    NonEmptyStringsFrom(inputs);
    SplitJoin(NonEmptyStrings(inputs), ' ');
  }

  /** The non-empty strings are exactly the non-empty arguments. */
  lemma {:induction false} NonEmptyStringsFrom(inputs: seq<ClassValue>)
    requires AllStrings(inputs)
    ensures forall x | x in NonEmptyStrings(inputs) :: exists k :: 0 <= k < |inputs| && inputs[k].s == x
    ensures forall k | 0 <= k < |inputs| && inputs[k].s != "" :: inputs[k].s in NonEmptyStrings(inputs)
  {
    if inputs != [] {
      assert AllStrings(inputs[1..]) by {
        forall k | 0 <= k < |inputs| - 1 ensures inputs[1..][k].ClassString? {
          assert inputs[1..][k] == inputs[k + 1];
        }
      }
      NonEmptyStringsFrom(inputs[1..]);
      forall x | x in NonEmptyStrings(inputs)
        ensures exists k :: 0 <= k < |inputs| && inputs[k].s == x
      {
        if x !in NonEmptyStrings(inputs[1..]) {
          assert inputs[0].s == x;
        } else {
          var k :| 0 <= k < |inputs| - 1 && inputs[1..][k].s == x;
          assert inputs[k + 1].s == x;
        }
      }
      forall k | 1 <= k < |inputs| && inputs[k].s != ""
        ensures inputs[k].s in NonEmptyStrings(inputs)
      {
        assert inputs[1..][k - 1] == inputs[k];
      }
    }
  }

  /** The helper as written ignores the conditions entirely: an object argument renders as the
      same fixed text whatever classes and conditions it holds. */
  lemma CnIgnoresConditions(base: string, m1: seq<(string, bool)>, m2: seq<(string, bool)>)
    requires base != ""
    ensures CnAsWritten([ClassString(base), ClassMap(m1)]) == base + [' '] + "[object Object]"
    ensures CnAsWritten([ClassString(base), ClassMap(m1)]) == CnAsWritten([ClassString(base), ClassMap(m2)])
  {
    RendersObjectText(base, m1);
    RendersObjectText(base, m2);
    JoinPair(base, "[object Object]", ' ');
  }

  lemma RendersObjectText(base: string, m: seq<(string, bool)>)
    requires base != ""
    ensures TruthyRendered([ClassString(base), ClassMap(m)]) == [base, "[object Object]"]
  {
    assert [ClassString(base), ClassMap(m)][1..] == [ClassMap(m)];
    assert [ClassMap(m)][1..] == [];
    assert TruthyRendered([ClassMap(m)]) == ["[object Object]"];
  }

  /** The corrected helper keeps every class whose condition holds. */
  lemma {:induction false} ClassNamesKeepsActiveKey(inputs: seq<ClassValue>, i: int, k: int)
    requires 0 <= i < |inputs| && inputs[i].ClassMap?
    requires 0 <= k < |inputs[i].entries| && inputs[i].entries[k].1 && inputs[i].entries[k].0 != ""
    ensures inputs[i].entries[k].0 in ActiveNames(inputs)
  {
    if i > 0 {
      assert inputs[1..][i - 1] == inputs[i];
      ClassNamesKeepsActiveKey(inputs[1..], i - 1, k);
    }
  }

  /** The corrected helper's class names are exactly the non-empty string arguments and the
      keys whose condition holds. */
  lemma {:induction false} ActiveNamesExactly(inputs: seq<ClassValue>, x: string)
    ensures x in ActiveNames(inputs) <==> exists i | 0 <= i < |inputs| :: Contributes(inputs[i], x)
  {
    if inputs != [] && exists i | 0 <= i < |inputs| :: Contributes(inputs[i], x) {
      var i :| 0 <= i < |inputs| && Contributes(inputs[i], x);
      if i == 0 {
        match inputs[0]
        case ClassString(s) =>
        case ClassMap(entries) =>
          var k :| 0 <= k < |entries| && entries[k] == (x, true);
          assert x in ActiveKeys(entries);
      } else {
        assert inputs[1..][i - 1] == inputs[i];
        ActiveNamesExactly(inputs[1..], x);
      }
    }
  }

  /** With exactly one condition true, the active keys are that one key. */
  lemma {:induction false} ActiveKeysOne(entries: seq<(string, bool)>, j: int)
    requires 0 <= j < |entries| && entries[j].1 && entries[j].0 != ""
    requires forall k | 0 <= k < |entries| && k != j :: !entries[k].1
    ensures ActiveKeys(entries) == [entries[j].0]
  {
    if j == 0 {
      ActiveKeysNone(entries[1..]);
    } else {
      forall k | 0 <= k < |entries| - 1 && k != j - 1
        ensures !entries[1..][k].1
      {
        assert entries[1..][k] == entries[k + 1];
      }
      ActiveKeysOne(entries[1..], j - 1);
    }
  }

  /** With no condition true there are no active keys. */
  lemma {:induction false} ActiveKeysNone(entries: seq<(string, bool)>)
    requires forall k | 0 <= k < |entries| :: !entries[k].1
    ensures ActiveKeys(entries) == []
  {
    if entries != [] {
      assert !entries[0].1;
      ActiveKeysNone(entries[1..]);
    }
  }

  /** A base class and one object with exactly one true condition give the base, a space and
      that key. */
  lemma ClassNamesOne(base: string, entries: seq<(string, bool)>, j: int)
    requires base != ""
    requires 0 <= j < |entries| && entries[j].1 && entries[j].0 != ""
    requires forall k | 0 <= k < |entries| && k != j :: !entries[k].1
    ensures ClassNames([ClassString(base), ClassMap(entries)]) == base + [' '] + entries[j].0
  {
    ActiveKeysOne(entries, j);
    var inputs := [ClassString(base), ClassMap(entries)];
    assert inputs[1..] == [ClassMap(entries)];
    assert inputs[1..][1..] == [];
    assert ActiveNames(inputs[1..]) == [entries[j].0] + [];
    assert ActiveNames(inputs) == [base] + [entries[j].0];
    JoinPair(base, entries[j].0, ' ');
  }

  const PanelBase := "mt-4 p-4 rounded-lg border"
  const GreenPanel := "bg-green-50 border-green-200"
  const YellowPanel := "bg-yellow-50 border-yellow-200"
  const RedPanel := "bg-red-50 border-red-200"

  /** The panel's class list for a result, with the corrected helper. */
  function PanelClass(r: AppCheckResult): string {
    ClassNames([ClassString(PanelBase), PanelColors(r.risk)])
  }

  function PanelColors(risk: RiskLevel): ClassValue {
    ClassMap([(GreenPanel, risk == Low), (YellowPanel, risk == Medium), (RedPanel, risk == High)])
  }

  /** Corrected, the panel carries its base classes and exactly its tier's colour pair. */
  lemma PanelClassByTier(r: AppCheckResult)
    ensures r.risk == Low ==> PanelClass(r) == PanelBase + [' '] + GreenPanel
    ensures r.risk == Medium ==> PanelClass(r) == PanelBase + [' '] + YellowPanel
    ensures r.risk == High ==> PanelClass(r) == PanelBase + [' '] + RedPanel
  {
    var j := match r.risk case Low => 0 case Medium => 1 case High => 2;
    ClassNamesOne(PanelBase, PanelColors(r.risk).entries, j);
  }

  /** The panel's class list for a result, with the helper as written. */
  function PanelClassAsWritten(r: AppCheckResult): string {
    CnAsWritten([ClassString(PanelBase), PanelColors(r.risk)])
  }

  /** As written, a dangerous result's panel lacks its red colour classes; corrected, it has them
      and no other colour pair. */
  lemma DangerousPanelColors(r: AppCheckResult)
    requires r.risk == High
    ensures !Contains(PanelClassAsWritten(r), RedPanel)
    ensures RedPanel in ActiveNames([ClassString(PanelBase), PanelColors(r.risk)])
    ensures PanelClass(r) == PanelBase + [' '] + RedPanel
  {
    PanelClassByTier(r);
    CnIgnoresConditions(PanelBase, PanelColors(r.risk).entries, []);
    PanelAsWrittenLacksRed(PanelClassAsWritten(r));
    ClassNamesKeepsActiveKey([ClassString(PanelBase), PanelColors(r.risk)], 1, 2);
  }

  /** The as-written panel classes have no '5', which the red classes need. */
  lemma PanelAsWrittenLacksRed(s: string)
    requires s == PanelBase + [' '] + "[object Object]"
    ensures !Contains(s, RedPanel)
  {
    LacksFive(PanelBase);
    LacksFive("[object Object]");
    assert '5' !in s;
    assert RedPanel[7] == '5';
    MissingCharNotContained(s, RedPanel, 7);
  }

  lemma LacksFive(t: string)
    requires t == PanelBase || t == "[object Object]"
    ensures '5' !in t
  {
  }

  /** The tier badge's class list, with the corrected helper and as written. */
  function BadgeClass(r: AppCheckResult): string {
    ClassNames([ClassString(BadgeBase), BadgeColors(r.risk)])
  }

  function BadgeClassAsWritten(r: AppCheckResult): string {
    CnAsWritten([ClassString(BadgeBase), BadgeColors(r.risk)])
  }

  const BadgeBase := "inline-flex items-center rounded-full px-2.5 py-0.5 text-xs font-medium"
  const GreenBadge := "bg-green-100 text-green-800"
  const YellowBadge := "bg-yellow-100 text-yellow-800"
  const RedBadge := "bg-red-100 text-red-800"

  function BadgeColors(risk: RiskLevel): ClassValue {
    ClassMap([(GreenBadge, risk == Low), (YellowBadge, risk == Medium), (RedBadge, risk == High)])
  }

  /** Corrected, the badge carries its base classes and exactly its tier's colour pair. */
  lemma BadgeClassByTier(r: AppCheckResult)
    ensures r.risk == Low ==> BadgeClass(r) == BadgeBase + [' '] + GreenBadge
    ensures r.risk == Medium ==> BadgeClass(r) == BadgeBase + [' '] + YellowBadge
    ensures r.risk == High ==> BadgeClass(r) == BadgeBase + [' '] + RedBadge
  {
    var j := match r.risk case Low => 0 case Medium => 1 case High => 2;
    ClassNamesOne(BadgeBase, BadgeColors(r.risk).entries, j);
  }

  /** As written, every tier gets the same badge classes; corrected, a safe result's badge has
      its green classes and no other colour pair. */
  lemma BadgeIgnoresTier(r1: AppCheckResult, r2: AppCheckResult)
    ensures BadgeClassAsWritten(r1) == BadgeClassAsWritten(r2)
    ensures r1.risk == Low ==> GreenBadge in ActiveNames([ClassString(BadgeBase), BadgeColors(r1.risk)])
    ensures r1.risk == Low ==> BadgeClass(r1) == BadgeBase + [' '] + GreenBadge
  {
    BadgeClassByTier(r1);
    CnIgnoresConditions(BadgeBase, BadgeColors(r1.risk).entries, BadgeColors(r2.risk).entries);
    if r1.risk == Low {
      ClassNamesKeepsActiveKey([ClassString(BadgeBase), BadgeColors(r1.risk)], 1, 0);
    }
  }
}
