/** The incident report wizard: choose a reporting mode, fill in the form, submit,
    see the case id, and start over. */
module Incident {
  import opened Text

  /** The two reporting modes; the component keeps them as the strings below,
      with null meaning "not chosen yet". */
  datatype ReportType = Anonymous | Identified

  function TypeName(t: ReportType): string {
    match t
    case Anonymous => "anonymous"
    case Identified => "identified"
  }

  datatype FormData = FormData(
    category: string,
    description: string,
    location: string,
    hasEvidence: bool,
    emergency: bool)

  /** The form as the component creates it and as "Submit Another Report" restores it. */
  const EmptyForm: FormData := FormData("", "", "", false, false)

  // ---------------------------------------------------------------------------
  // The case id

  /** reportType.toUpperCase().slice(0, 3): "ANO" for an anonymous report and "IDE"
      for an identified one. */
  function Prefix(t: ReportType): (p: string)
    ensures p == if t == Anonymous then "ANO" else "IDE"
  {
    var upper := ToUpper(TypeName(t));
    assert upper[0] == UpperChar(TypeName(t)[0]);
    assert upper[1] == UpperChar(TypeName(t)[1]);
    assert upper[2] == UpperChar(TypeName(t)[2]);
    upper[..3]
  }

  /** The case id made on completion: the mode prefix, a dash, and the last six
      digits of the millisecond clock `now`. */
  function CaseId(t: ReportType, now: nat): string {
    Prefix(t) + "-" + Last(Decimal(now), 6)
  }

  /** Reads a case id back into its mode and the number its digits denote. */
  function DecodeCaseId(id: string): Option<(ReportType, nat)> {
    if |id| < 5 || id[3] != '-' || !AllDigits(id[4..]) then None
    else if id[..3] == "ANO" then Some((Anonymous, Value(id[4..])))
    else if id[..3] == "IDE" then Some((Identified, Value(id[4..])))
    else None
  }

  /** The digit part of a case id: one to six digits that denote `now` modulo 10^6. */
  lemma ClockDigits(now: nat)
    ensures var d := Last(Decimal(now), 6);
      1 <= |d| <= 6 && AllDigits(d) && Value(d) == now % 1000000
  {
    assert Pow10(6) == 1000000;
    LastDigitsValue(Decimal(now), 6);
    ValueOfDecimal(now);
  }

  /** Decoding a three-letter prefix, a dash and a run of digits: the prefix picks the
      mode and the digits are read as a number. */
  lemma DecodeParts(prefix: string, digits: string)
    requires |prefix| == 3 && 1 <= |digits| && AllDigits(digits)
    ensures var id := prefix + "-" + digits;
      && |id| == 4 + |digits| && id[..3] == prefix && id[3] == '-' && id[4..] == digits
      && DecodeCaseId(id) == if prefix == "ANO" then Some((Anonymous, Value(digits)))
                             else if prefix == "IDE" then Some((Identified, Value(digits)))
                             else None
  {
    var id := prefix + "-" + digits;
    assert id[..3] == prefix && id[4..] == digits;
  }

  /** A case id has the shape "ANO-dddddd" / "IDE-dddddd" with one to six digits, and
      decoding it gives back the mode and the clock reading modulo 10^6. */
  lemma {:induction false} CaseIdRoundTrip(t: ReportType, now: nat)
    ensures var id := CaseId(t, now);
      && 5 <= |id| <= 10
      && id[..3] == (if t == Anonymous then "ANO" else "IDE")
      && id[3] == '-'
      && AllDigits(id[4..])
      && DecodeCaseId(id) == Some((t, now % 1000000))
  {
    ClockDigits(now);
    DecodeParts(Prefix(t), Last(Decimal(now), 6));
  }

  /** Two equal case ids come from the same mode and from clock readings that agree
      in their last six decimal digits. */
  lemma CaseIdDeterminesMode(t1: ReportType, now1: nat, t2: ReportType, now2: nat)
    requires CaseId(t1, now1) == CaseId(t2, now2)
    ensures t1 == t2 && now1 % 1000000 == now2 % 1000000
  {
    CaseIdRoundTrip(t1, now1);
    CaseIdRoundTrip(t2, now2);
  }

  // ---------------------------------------------------------------------------
  // Gating

  /** The Submit button's enable rule: a category and a description (untrimmed, so
      blanks count) and no submission in flight. */
  predicate SubmitEnabled(form: FormData, isSubmitting: bool) {
    !(form.category == "" || form.description == "" || isSubmitting)
  }

  /** The rule does not trim: a description of blanks enables Submit like any other text,
      while an empty category or description or a running submission disables it. */
  lemma SubmitGate(form: FormData, isSubmitting: bool)
    ensures SubmitEnabled(form, isSubmitting) <==> form.category != "" && form.description != "" && !isSubmitting
    ensures form.category != "" && !isSubmitting ==> SubmitEnabled(form.(description := " "), isSubmitting)
    ensures !SubmitEnabled(form.(category := ""), isSubmitting)
    ensures !SubmitEnabled(form.(description := ""), isSubmitting)
  {
  }

  /** The screen the component renders: the receipt wins over everything, then the
      mode choice while no mode is set, then the form. */
  datatype Screen = Receipt | ModeChoice | Form

  function ScreenOf(isSubmitted: bool, reportType: Option<ReportType>): Screen {
    if isSubmitted then Receipt
    else if reportType.None? then ModeChoice
    else Form
  }

  /** All of the component's state at once. `pending` is the report type captured by
      the completion that "Submit Report" scheduled, present while it has not fired. */
  datatype WizardState = WizardState(
    reportType: Option<ReportType>,
    isSubmitting: bool,
    isSubmitted: bool,
    caseId: string,
    formData: FormData,
    pending: Option<ReportType>)

  const InitialState: WizardState := WizardState(None, false, false, "", EmptyForm, None)

  class IncidentReport {
    var reportType: Option<ReportType>
    var isSubmitting: bool
    var isSubmitted: bool
    var caseId: string
    var formData: FormData
    var pending: Option<ReportType>

    ghost function State(): WizardState
      reads this
    {
      WizardState(reportType, isSubmitting, isSubmitted, caseId, formData, pending)
    }

    /** A completion is scheduled exactly while a submission is in flight. */
    ghost predicate Valid()
      reads this
    {
      isSubmitting <==> pending.Some?
    }

    function CurrentScreen(): Screen
      reads this
    {
      ScreenOf(isSubmitted, reportType)
    }

    constructor ()
      ensures Valid() && State() == InitialState
      ensures CurrentScreen() == ModeChoice
    {
      reportType := None;
      isSubmitting := false;
      isSubmitted := false;
      caseId := "";
      formData := EmptyForm;
      pending := None;
    }

    /** A click on one of the two mode cards. */
    method ChooseMode(t: ReportType)
      requires Valid()
      modifies this
      ensures Valid()
      ensures State() == old(State()).(reportType := Some(t))
      ensures !isSubmitted ==> CurrentScreen() == Form
    {
      reportType := Some(t);
    }

    /** The back arrow: forgets the mode and nothing else, so the form keeps its data. */
    method Back()
      requires Valid()
      modifies this
      ensures Valid()
      ensures State() == old(State()).(reportType := None)
      ensures formData == old(formData)
      ensures CurrentScreen() == if isSubmitted then Receipt else ModeChoice
    {
      reportType := None;
    }

    method SetEmergency(checked: bool)
      requires Valid()
      modifies this
      ensures Valid()
      ensures State() == old(State()).(formData := old(formData).(emergency := checked))
    {
      formData := formData.(emergency := checked);
    }

    method SetCategory(value: string)
      requires Valid()
      modifies this
      ensures Valid()
      ensures State() == old(State()).(formData := old(formData).(category := value))
    {
      formData := formData.(category := value);
    }

    method SetDescription(value: string)
      requires Valid()
      modifies this
      ensures Valid()
      ensures State() == old(State()).(formData := old(formData).(description := value))
    {
      formData := formData.(description := value);
    }

    method SetLocation(value: string)
      requires Valid()
      modifies this
      ensures Valid()
      ensures State() == old(State()).(formData := old(formData).(location := value))
    {
      formData := formData.(location := value);
    }

    method SetHasEvidence(checked: bool)
      requires Valid()
      modifies this
      ensures Valid()
      ensures State() == old(State()).(formData := old(formData).(hasEvidence := checked))
    {
      formData := formData.(hasEvidence := checked);
    }

    /** Whether the Submit button is enabled. */
    function CanSubmit(): bool
      reads this
    {
      SubmitEnabled(formData, isSubmitting)
    }

    /** A click on "Submit Report", which is on the form screen and enabled only by the
        rule above: marks the submission in flight and schedules its completion with the
        current mode. */
    method HandleSubmit()
      requires Valid() && CurrentScreen() == Form && CanSubmit()
      modifies this
      ensures Valid()
      ensures State() == old(State()).(isSubmitting := true, pending := old(reportType))
      ensures !CanSubmit()
    {
      isSubmitting := true;
      pending := reportType;
    }

    /** The scheduled completion firing at clock reading `now`: stores the case id built
        from the captured mode and shows the receipt, whatever screen was showing. */
    method CompleteSubmit(now: nat)
      requires Valid() && isSubmitting
      modifies this
      ensures Valid()
      ensures State() == old(State()).(caseId := CaseId(old(pending).value, now),
                                       isSubmitted := true, isSubmitting := false, pending := None)
      ensures CurrentScreen() == Receipt
    {
      caseId := CaseId(pending.value, now);
      isSubmitted := true;
      isSubmitting := false;
      pending := None;
    }

    /** "Submit Another Report": back to the initial state except that the previous
        case id stays stored. */
    method SubmitAnother()
      requires Valid()
      modifies this
      ensures Valid()
      ensures State() == InitialState.(caseId := old(caseId),
                                       isSubmitting := old(isSubmitting), pending := old(pending))
      ensures CurrentScreen() == ModeChoice
    {
      isSubmitted := false;
      reportType := None;
      formData := EmptyForm;
    }
  }

  /** An identified report about harassment, described as "test", submitted at clock
      reading `now`: the receipt shows a case id "IDE-" followed by digits. */
  method IdentifiedScenario(now: nat) returns (id: string)
    ensures |id| >= 5 && id[..3] == "IDE" && id[3] == '-' && AllDigits(id[4..])
  {
    var w := new IncidentReport();
    w.ChooseMode(Identified);
    assert w.reportType == Some(Identified) && !w.isSubmitting && !w.isSubmitted;
    w.SetCategory("Harassment");
    w.SetDescription("test");
    assert w.formData.category == "Harassment" && w.formData.description == "test";
    assert w.reportType == Some(Identified) && !w.isSubmitting && !w.isSubmitted;
    w.HandleSubmit();
    assert w.pending == Some(Identified);
    w.CompleteSubmit(now);
    id := w.caseId;
    assert id == CaseId(Identified, now);
    CaseIdRoundTrip(Identified, now);
  }
}
