/** The "Should I Share Data?" checker: a collapsed card that opens into a form, a
    simulated check that takes two seconds, and a result with a safety status. */
module DataSafety {
  import opened Text

  const SafeColor: string := "text-green-600 bg-green-50 border-green-200"
  const CautionColor: string := "text-yellow-600 bg-yellow-50 border-yellow-200"
  const UnsafeColor: string := "text-red-600 bg-red-50 border-red-200"
  const UnknownColor: string := "text-gray-600 bg-gray-50 border-gray-200"

  /** getStatusColor */
  function StatusColor(status: string): string {
    if status == "safe" then SafeColor
    else if status == "caution" then CautionColor
    else if status == "unsafe" then UnsafeColor
    else UnknownColor
  }

  /** The statuses a check can produce. */
  const Verdicts: set<string> := {"unsafe", "caution", "safe"}

  /** Each verdict has its own colour, and every other string is shown in gray. */
  lemma StatusColorSeparates(a: string, b: string)
    ensures StatusColor(a) == UnknownColor <==> a !in Verdicts
    ensures a in Verdicts && StatusColor(a) == StatusColor(b) ==> a == b
  {
    assert SafeColor[5] == 'g' && CautionColor[5] == 'y' && UnsafeColor[5] == 'r';
    assert UnknownColor[5] == 'g' && UnknownColor[6] == 'r' && SafeColor[6] == 'r';
    assert UnknownColor[7] == 'a' && SafeColor[7] == 'e';
  }

  datatype CheckResult = CheckResult(
    status: string,
    permissions: seq<string>,
    riskFactors: seq<string>,
    recommendations: seq<string>)

  /** The result the simulated check stores: the drawn status with fixed lists. */
  function MockResult(status: string): (r: CheckResult)
    ensures r.status == status
    ensures |r.permissions| == 4 && |r.riskFactors| == 3 && |r.recommendations| == 3
  {
    CheckResult(
      status,
      ["Camera", "Location", "Contacts", "Storage"],
      ["Requests location data without clear purpose",
       "Third-party data sharing detected",
       "No clear privacy policy"],
      ["Deny location access",
       "Review app permissions regularly",
       "Consider alternatives with better privacy"])
  }

  /** Two results differ at most in their status. */
  lemma MockResultsAgree(a: string, b: string)
    ensures MockResult(a).permissions == MockResult(b).permissions
    ensures MockResult(a).riskFactors == MockResult(b).riskFactors
    ensures MockResult(a).recommendations == MockResult(b).recommendations
    ensures MockResult(a) == MockResult(b) <==> a == b
  {
  }

  /** The check button's enable rule: a URL or an app name (untrimmed) and no check running. */
  predicate CheckEnabled(checkUrl: string, appName: string, isChecking: bool) {
    !((checkUrl == "" && appName == "") || isChecking)
  }

  /** Either field suffices, blanks included; both empty or a running check disable the button. */
  lemma CheckGate(checkUrl: string, appName: string, isChecking: bool)
    ensures CheckEnabled(checkUrl, appName, isChecking) <==> (checkUrl != "" || appName != "") && !isChecking
    ensures CheckEnabled(" ", "", false) && CheckEnabled("", " ", false)
    ensures !CheckEnabled("", "", isChecking)
  {
  }

  datatype ToolState = ToolState(
    showFullTool: bool,
    checkUrl: string,
    appName: string,
    isChecking: bool,
    result: Option<CheckResult>)

  const InitialState: ToolState := ToolState(false, "", "", false, None)

  class DataSafetyTool {
    var showFullTool: bool
    var checkUrl: string
    var appName: string
    var isChecking: bool
    var result: Option<CheckResult>

    ghost function State(): ToolState
      reads this
    {
      ToolState(showFullTool, checkUrl, appName, isChecking, result)
    }

    /** Every stored result is one the simulated check can produce. */
    ghost predicate Valid()
      reads this
    {
      result.Some? ==> result.value.status in Verdicts && result.value == MockResult(result.value.status)
    }

    constructor ()
      ensures Valid() && State() == InitialState
    {
      showFullTool := false;
      checkUrl := "";
      appName := "";
      isChecking := false;
      result := None;
    }

    /** "Check Safety Now" on the collapsed card. */
    method Open()
      requires Valid()
      modifies this
      ensures Valid() && State() == old(State()).(showFullTool := true)
    {
      showFullTool := true;
    }

    /** The close button only hides the tool; inputs, result and a running check stay. */
    method Close()
      requires Valid()
      modifies this
      ensures Valid() && State() == old(State()).(showFullTool := false)
    {
      showFullTool := false;
    }

    method SetCheckUrl(value: string)
      requires Valid()
      modifies this
      ensures Valid() && State() == old(State()).(checkUrl := value)
    {
      checkUrl := value;
    }

    method SetAppName(value: string)
      requires Valid()
      modifies this
      ensures Valid() && State() == old(State()).(appName := value)
    {
      appName := value;
    }

    function CanCheck(): bool
      reads this
    {
      CheckEnabled(checkUrl, appName, isChecking)
    }

    /** "Check Safety", shown in the open tool and enabled by the rule above: starts the
        check. A running check is what keeps isChecking set. */
    method HandleCheck()
      requires Valid() && showFullTool && CanCheck()
      modifies this
      ensures Valid() && State() == old(State()).(isChecking := true)
      ensures !CanCheck()
    {
      isChecking := true;
    }

    /** The check's timer fires: some verdict is drawn, the result is stored and the check
        ends, whether or not the tool is still open. */
    method CompleteCheck()
      requires Valid() && isChecking
      modifies this
      ensures Valid()
      ensures result.Some? && result.value.status in Verdicts
      ensures State() == old(State()).(isChecking := false, result := Some(MockResult(result.value.status)))
      ensures StatusColor(result.value.status) != UnknownColor
    {
      var status :| status in Verdicts;
      result := Some(MockResult(status));
      isChecking := false;
      StatusColorSeparates(status, status);
    }
  }
}
