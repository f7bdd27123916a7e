/** The phone-number lookup panel: a blank-input guard that raises an error toast, a timer
    callback that decides the caller information from the number's suffix and length, and the
    rules that render that information. */
module PhoneNumberLookup {
  import opened Wrappers
  import opened Text

  /** The non-null `PhoneInfo` record. */
  datatype PhoneInfo = PhoneInfo(owner: string, reportCount: int, isSuspicious: bool, tags: seq<string>)

  /** The argument of a `toast` call. */
  datatype Toast = Toast(title: string, description: string, variant: string)

  const InvalidNumberToast := Toast("Error", "Please enter a valid phone number", "destructive")

  const ScamInfo := PhoneInfo("Unknown", 47, true, ["Scam", "Fraud", "Impersonation"])
  const BankInfo := PhoneInfo("Bank of America (Official)", 0, false, ["Verified", "Financial Institution"])

  /** `Math.floor(random * 5)`. */
  function RandomReportCount(random: real): (n: int)
    requires 0.0 <= random < 1.0
    ensures 0 <= n <= 4
    ensures n as real <= random * 5.0 < n as real + 1.0
  {
    (random * 5.0).Floor
  }

  /** The decision of the lookup callback; `random` is the value `Math.random()` returned. A
      number is marked suspicious exactly when it ends in "999", or is longer than nine characters
      without ending in "000"; reports need the "999" suffix or more than eight characters. */
  function LookupResult(phoneNumber: string, random: real): (info: PhoneInfo)
    requires 0.0 <= random < 1.0
    ensures info.isSuspicious <==>
      EndsWith(phoneNumber, "999") || (!EndsWith(phoneNumber, "000") && |phoneNumber| > 9)
    ensures info.reportCount > 0 ==> EndsWith(phoneNumber, "999") || |phoneNumber| > 8
  {
    if EndsWith(phoneNumber, "999") then ScamInfo
    else if EndsWith(phoneNumber, "000") then BankInfo
    else
      PhoneInfo("Unknown Caller",
                if |phoneNumber| > 8 then RandomReportCount(random) else 0,
                |phoneNumber| > 9,
                if |phoneNumber| > 9 then ["Suspicious", "Telemarketing"] else ["Unverified"])
  }

  /** A number ending in "999" is the reported scam line, whatever the random value. */
  lemma ScamSuffixRule(phoneNumber: string, random: real)
    requires 0.0 <= random < 1.0
    requires EndsWith(phoneNumber, "999")
    ensures var info := LookupResult(phoneNumber, random);
      && info.owner == "Unknown" && info.reportCount == 47 && info.isSuspicious
      && info.tags == ["Scam", "Fraud", "Impersonation"]
  {
  }

  /** A number ending in "000" is the verified bank line, whatever the random value. */
  lemma BankSuffixRule(phoneNumber: string, random: real)
    requires 0.0 <= random < 1.0
    requires EndsWith(phoneNumber, "000")
    ensures var info := LookupResult(phoneNumber, random);
      && info.owner == "Bank of America (Official)" && info.reportCount == 0 && !info.isSuspicious
      && info.tags == ["Verified", "Financial Institution"]
  {
    assert !EndsWith(phoneNumber, "999") by {
      assert phoneNumber[|phoneNumber| - 3..][0] == '0';
    }
  }

  /** Any other number: suspicious with the telemarketing tags exactly when longer than nine
      characters, a report count only when longer than eight, and then between 0 and 4. */
  lemma OtherNumberRule(phoneNumber: string, random: real)
    requires 0.0 <= random < 1.0
    requires !EndsWith(phoneNumber, "999") && !EndsWith(phoneNumber, "000")
    ensures var info := LookupResult(phoneNumber, random);
      && info.owner == "Unknown Caller"
      && (info.isSuspicious <==> |phoneNumber| > 9)
      && (info.tags == ["Suspicious", "Telemarketing"] <==> |phoneNumber| > 9)
      && (info.tags == ["Unverified"] <==> |phoneNumber| <= 9)
      && (|phoneNumber| <= 8 ==> info.reportCount == 0)
      && (|phoneNumber| > 8 ==> info.reportCount == (random * 5.0).Floor)
      && 0 <= info.reportCount <= 4
  {
    assert ["Suspicious", "Telemarketing"] != ["Unverified"];
  }

  /** Whatever the number, the count is never negative, and the displayed tag list is never empty. */
  lemma LookupResultBounds(phoneNumber: string, random: real)
    requires 0.0 <= random < 1.0
    ensures var info := LookupResult(phoneNumber, random);
      0 <= info.reportCount <= 47 && |info.tags| > 0
  {
  }

  /** A nine-character number can show reports and still not be marked suspicious. */
  lemma NineDigitsReportedButNotSuspicious(phoneNumber: string)
    requires phoneNumber == "555123456"
    ensures var info := LookupResult(phoneNumber, 0.5);
      info.reportCount == 2 && !info.isSuspicious
  {
    assert phoneNumber[6..] == "456";
  }

  /** The suffix tests look at the raw text: a trailing space hides the "999" suffix. */
  lemma TrailingSpaceHidesSuffix(phoneNumber: string, random: real)
    requires 0.0 <= random < 1.0
    requires phoneNumber == "123999 "
    ensures LookupResult(phoneNumber, random) == PhoneInfo("Unknown Caller", 0, false, ["Unverified"])
  {
    assert phoneNumber[4..] == "99 ";
  }

  /** `after` is the toast log `before` with the invalid-number toast added. */
  predicate InvalidNumberToastShown(before: seq<Toast>, after: seq<Toast>) {
    after == before + [InvalidNumberToast]
  }

  /** The panel's state, and the toasts shown so far (the only observable effect of `toast`). */
  class Lookup {
    var phoneNumber: string
    var isLookingUp: bool
    var phoneInfo: Option<PhoneInfo>
    var toasts: seq<Toast>

    constructor ()
      ensures phoneNumber == "" && !isLookingUp && phoneInfo == None && toasts == []
    {
      phoneNumber := "";
      isLookingUp := false;
      phoneInfo := None;
      toasts := [];
    }

    /** The text field's change handler. */
    method SetPhoneNumber(text: string)
      modifies this
      ensures phoneNumber == text
      ensures isLookingUp == old(isLookingUp) && phoneInfo == old(phoneInfo) && toasts == old(toasts)
    {
      phoneNumber := text;
    }

    /** `lookupPhoneNumber`: a blank number only raises the error toast; otherwise the old
        information is cleared, the panel shows progress and the callback is scheduled with the
        number as typed, which the returned value carries. */
    method LookupPhoneNumber() returns (scheduled: Option<string>)
      modifies this
      ensures phoneNumber == old(phoneNumber)
      ensures IsBlank(phoneNumber) ==>
        && scheduled == None
        && isLookingUp == old(isLookingUp) && phoneInfo == old(phoneInfo)
        && InvalidNumberToastShown(old(toasts), toasts)
      ensures !IsBlank(phoneNumber) ==>
        scheduled == Some(phoneNumber) && isLookingUp && phoneInfo == None && toasts == old(toasts)
    {
      if IsBlank(phoneNumber) {
        ShowInvalidNumberToast();
        return None;
      }
      isLookingUp := true;
      phoneInfo := None;
      scheduled := Some(phoneNumber);
    }

    /** The `toast(...)` call of the blank-number guard: the error toast joins the log of those
        shown; nothing else changes. */
    method ShowInvalidNumberToast()
      modifies this
      ensures InvalidNumberToastShown(old(toasts), toasts)
      ensures phoneNumber == old(phoneNumber) && isLookingUp == old(isLookingUp) && phoneInfo == old(phoneInfo)
    {
      toasts := toasts + [InvalidNumberToast];
    }

    /** The timer callback of `lookupPhoneNumber`, run with the number it captured and the value
        `Math.random()` returns. */
    method CompleteLookup(number: string, random: real)
      requires 0.0 <= random < 1.0
      modifies this
      ensures phoneNumber == old(phoneNumber) && toasts == old(toasts)
      ensures !isLookingUp && phoneInfo == Some(LookupResult(number, random))
    {
      isLookingUp := false;
      phoneInfo := Some(LookupResult(number, random));
    }
  }

  /** A lookup of a non-blank number ends with the information for that number and no toast; a
      blank one ends with the error toast and no information. */
  method LookupSession(number: string, random: real) returns (info: Option<PhoneInfo>, shown: seq<Toast>)
    requires 0.0 <= random < 1.0
    ensures IsBlank(number) ==> info == None && shown == [InvalidNumberToast]
    ensures !IsBlank(number) ==> info == Some(LookupResult(number, random)) && shown == []
  {
    var panel := new Lookup();
    panel.SetPhoneNumber(number);
    var scheduled := panel.LookupPhoneNumber();
    if scheduled.Some? {
      panel.CompleteLookup(scheduled.value, random);
    }
    info, shown := panel.phoneInfo, panel.toasts;
  }

  // ---------------------------------------------------------------------------------------------
  // What the panel renders for the information

  const NoReportsText := "No reports found"
  const ReportedSuffix := " users reported this number"

  /** The report line under the owner: the no-reports line exactly when there are none, and
      otherwise a line ending in the reported suffix. */
  function ReportText(info: PhoneInfo): (text: string)
    ensures text == NoReportsText <==> info.reportCount <= 0
    ensures info.reportCount > 0 ==> EndsWith(text, ReportedSuffix)
  {
    if info.reportCount > 0 then
      var digits := DecimalString(info.reportCount);
      CountTextIsNotNoReports(digits);
      assert (digits + ReportedSuffix)[|digits|..] == ReportedSuffix;
      digits + ReportedSuffix
    else
      NoReportsText
  }

  /** The report line shows a count exactly when there are reports, and the count it shows reads
      back as the report count. */
  lemma ReportTextShowsCount(info: PhoneInfo)
    ensures ReportText(info) == NoReportsText <==> info.reportCount <= 0
    ensures info.reportCount > 0 ==>
      exists digits :: ReportText(info) == digits + ReportedSuffix
        && (forall k :: 0 <= k < |digits| ==> '0' <= digits[k] <= '9')
        && ParseDecimal(digits) == info.reportCount
  {
    if info.reportCount > 0 {
      var digits := DecimalString(info.reportCount);
      ParseDecimalString(info.reportCount);
      assert ReportText(info) == digits + ReportedSuffix;
      CountTextIsNotNoReports(digits);
    }
  }

  /** A line that starts with a digit is not the no-reports line. */
  lemma CountTextIsNotNoReports(digits: string)
    requires |digits| >= 1 && '0' <= digits[0] <= '9'
    ensures digits + ReportedSuffix != NoReportsText
  {
    assert (digits + ReportedSuffix)[0] == digits[0];
    assert NoReportsText[0] == 'N';
  }

  /** The status badge: "Suspicious" for a suspicious number, "Verified" otherwise. */
  function StatusBadge(info: PhoneInfo): (text: string)
    ensures text == "Suspicious" <==> info.isSuspicious
    ensures text == "Verified" <==> !info.isSuspicious
  {
    if info.isSuspicious then "Suspicious" else "Verified"
  }

  /** The "Safe" pill beside the owner. */
  predicate ShowsSafePill(info: PhoneInfo) {
    !info.isSuspicious
  }

  /** The tag row. */
  predicate ShowsTags(info: PhoneInfo) {
    |info.tags| > 0
  }

  /** The badge reads "Verified" exactly when the "Safe" pill shows; every lookup result shows a
      tag row. */
  lemma DisplayRules(info: PhoneInfo, number: string, random: real)
    requires 0.0 <= random < 1.0
    ensures StatusBadge(info) == "Verified" <==> ShowsSafePill(info)
    ensures StatusBadge(info) == "Suspicious" <==> info.isSuspicious
    ensures ShowsTags(LookupResult(number, random))
  {
  }
}
