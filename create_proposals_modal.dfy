/** The "create proposal" modal of the proposals screen: a contract model
    picker, a start date picked as day, month and year, and a submit that
    saves a contract for the current company. */
module CreateProposalsModal {
  import opened Options
  import opened JsText
  import opened StoreApi
  import CrmOpportunities

  const RequiredFieldsMessage := "Por favor, preencha todos os campos obrigatórios."
  const FailedMessage := "Erro ao criar contrato. Tente novamente."

  /** The query of `loadContractModels`, sent to the models store. */
  const ModelsQuery: Params := map["context" := Text("proposal")]

  /** `year-mm-dd`, month and day padded to two characters and the year left
      as typed; null (None) when any part is missing. */
  function FormatDate(year: string, month: string, day: string): (r: Option<string>)
    ensures r.None? <==> year == [] || month == [] || day == []
    ensures r.Some? ==> |r.value| == |year| + |PadStart2(month)| + |PadStart2(day)| + 2 && r.value[..|year|] == year
  {
    if year == [] || month == [] || day == [] then None
    else Some(year + "-" + PadStart2(month) + "-" + PadStart2(day))
  }

  /** This modal and the opportunities screen assemble dates alike; they
      differ only in what stands for a missing part (null against ''). */
  lemma FormatDateAgreesWithOpportunities(year: string, month: string, day: string)
    ensures FormatDate(year, month, day)
         == if CrmOpportunities.FormatDateFromComponents(day, month, year) == [] then None
            else Some(CrmOpportunities.FormatDateFromComponents(day, month, year))
  {
  }

  /** The value stored by the day picker for day `d`: `d.toString()`, unpadded. */
  function DayValue(d: nat): (r: string)
    requires 1 <= d <= 31
    ensures 1 <= |r| <= 2 && AllDigits(r) && DigitsValue(r) == d
  {
    NatToStringValue(d);
    NatToString(d)
  }

  /** The value stored by the month picker for entry `index`: `(index + 1).toString()`. */
  function MonthValue(index: nat): (r: string)
    requires index < 12
    ensures 1 <= |r| <= 2 && AllDigits(r) && DigitsValue(r) == index + 1
  {
    NatToStringValue(index + 1);
    NatToString(index + 1)
  }

  /** Unpadded picker values with a typed year still give a two-digit month
      and day in the saved date. */
  lemma PickedStartDateIsIso(year: string, d: nat, index: nat)
    requires year != [] && 1 <= d <= 31 && index < 12
    ensures FormatDate(year, MonthValue(index), DayValue(d)).Some?
    ensures IsIsoDateOf(FormatDate(year, MonthValue(index), DayValue(d)).value, year, index + 1, d)
  {
    PaddedNumberIsTwoDigits(d);
    PaddedNumberIsTwoDigits(index + 1);
    IsoDateJoin(year, PadStart2(MonthValue(index)), PadStart2(DayValue(d)), index + 1, d);
  }

  /** The object given to the contracts store's `save`. */
  datatype ProposalPayload = ProposalPayload(contractModel: string, beneficiary: string, startDate: Option<string>)

  /** The payload of a submit: the chosen model, the current company as
      `'people/' + id`, and the start date. The beneficiary chosen in the
      form is not part of it. */
  function ProposalPayloadOf(model: string, companyId: int, year: string, month: string, day: string): (p: ProposalPayload)
    ensures p.contractModel == model
    ensures p.beneficiary == "people/" + IntToText(companyId)
    ensures p.startDate == FormatDate(year, month, day)
    ensures p.startDate.None? <==> year == [] || month == [] || day == []
  {
    ProposalPayload(model, "people/" + IntToText(companyId), FormatDate(year, month, day))
  }

  /** The submit button is enabled unless a save is running or no model is chosen. */
  function SubmitEnabled(isLoading: bool, model: string): (r: bool)
    ensures r <==> !isLoading && model != []
  {
    !(isLoading || model == [])
  }

  /** What a press on "Criar Contrato" does: the guard's alert, or one save
      followed, on success, by the parent's callbacks and, on failure, by an
      alert. */
  function SubmitEvents(model: string, companyId: int, year: string, month: string, day: string,
                        saveSucceeds: bool, hasOnSuccess: bool): (r: seq<ModalEvent<ProposalPayload>>)
    ensures model == [] ==> r == [Alerted(RequiredFieldsMessage)]
    ensures model != [] ==>
              |r| >= 2 && r[0] == SaveCalled(ProposalPayloadOf(model, companyId, year, month, day))
              && r[|r| - 1] == if saveSucceeds then CloseCallback else Alerted(FailedMessage)
  {
    SavedThen(model != [], SaveCalled(ProposalPayloadOf(model, companyId, year, month, day)), saveSucceeds, hasOnSuccess)
  }

  /** The events of a submit once the guard's verdict and the save are known. */
  function SavedThen(guard: bool, save: ModalEvent<ProposalPayload>, saveSucceeds: bool, hasOnSuccess: bool)
    : (r: seq<ModalEvent<ProposalPayload>>)
    ensures !guard ==> r == [Alerted(RequiredFieldsMessage)]
    ensures guard ==> |r| >= 2 && r[0] == save && r[|r| - 1] == if saveSucceeds then CloseCallback else Alerted(FailedMessage)
  {
    if !guard then [Alerted(RequiredFieldsMessage)]
    else if !saveSucceeds then [save, Alerted(FailedMessage)]
    else if hasOnSuccess then [save, SuccessCallback, CloseCallback]
    else [save, CloseCallback]
  }

  /** `SubmitEvents` on each side of the guard, for the form's methods. */
  lemma SubmitEventsCases(model: string, companyId: int, year: string, month: string, day: string,
                          saveSucceeds: bool, hasOnSuccess: bool)
    ensures SubmitEvents(model, companyId, year, month, day, saveSucceeds, hasOnSuccess)
         == SavedThen(model != [], SaveCalled(ProposalPayloadOf(model, companyId, year, month, day)), saveSucceeds, hasOnSuccess)
  {
  }

  /** A chosen model leads to exactly one save, as the first event; without
      one nothing is saved. */
  lemma GuardDecidesSave(model: string, companyId: int, year: string, month: string, day: string,
                         saveSucceeds: bool, hasOnSuccess: bool)
    ensures var r := SubmitEvents(model, companyId, year, month, day, saveSucceeds, hasOnSuccess);
            (r[0].SaveCalled? <==> model != [])
            && forall k :: 1 <= k < |r| ==> !r[k].SaveCalled?
  {
    var r := SubmitEvents(model, companyId, year, month, day, saveSucceeds, hasOnSuccess);
    var save := SaveCalled(ProposalPayloadOf(model, companyId, year, month, day));
    if model == [] {
      assert r == [Alerted(RequiredFieldsMessage)];
    } else if !saveSucceeds {
      assert r == [save, Alerted(FailedMessage)];
    } else if hasOnSuccess {
      assert r == [save, SuccessCallback, CloseCallback];
    } else {
      assert r == [save, CloseCallback];
    }
  }

  /** A successful save shows no alert of its own; the parent's callbacks run
      only after one. */
  lemma SuccessIsSilent(model: string, companyId: int, year: string, month: string, day: string,
                        saveSucceeds: bool, hasOnSuccess: bool)
    ensures var r := SubmitEvents(model, companyId, year, month, day, saveSucceeds, hasOnSuccess);
            (model != [] && saveSucceeds ==> forall k :: 0 <= k < |r| ==> !r[k].Alerted?)
            && (CloseCallback in r <==> model != [] && saveSucceeds)
            && (SuccessCallback in r <==> model != [] && saveSucceeds && hasOnSuccess)
  {
    var r := SubmitEvents(model, companyId, year, month, day, saveSucceeds, hasOnSuccess);
    var save := SaveCalled(ProposalPayloadOf(model, companyId, year, month, day));
    if model == [] {
      assert r == [Alerted(RequiredFieldsMessage)];
    } else if !saveSucceeds {
      assert r == [save, Alerted(FailedMessage)];
    } else if hasOnSuccess {
      assert r == [save, SuccessCallback, CloseCallback];
      assert r[2] == CloseCallback && r[1] == SuccessCallback;
    } else {
      assert r == [save, CloseCallback];
      assert r[1] == CloseCallback;
    }
  }

  class CreateProposalsForm {
    var selectedModel: string
    var selectedBeneficiary: string
    var startDay: string
    var startMonth: string
    var startYear: string
    var isLoading: bool
    var loadingModels: bool
    var contractModels: seq<ContractModel>
    var events: seq<ModalEvent<ProposalPayload>>

    ghost predicate FormCleared()
      reads this
    {
      selectedModel == "" && selectedBeneficiary == "" && startDay == "" && startMonth == "" && startYear == ""
    }

    constructor ()
      ensures FormCleared() && !isLoading && !loadingModels && contractModels == [] && events == []
    {
      selectedModel, selectedBeneficiary := "", "";
      startDay, startMonth, startYear := "", "", "";
      isLoading, loadingModels := false, false;
      contractModels, events := [], [];
    }

    /** `loadContractModels`: the response replaces the list; a failed query
        is swallowed and leaves the list as it was. */
    method LoadContractModels(outcome: FetchOutcome<seq<ContractModel>>)
      modifies this
      ensures contractModels == if outcome.Fetched? then outcome.value else old(contractModels)
      ensures !loadingModels
      ensures events == old(events) + [ItemsRequested(ModelsQuery)]
      ensures selectedModel == old(selectedModel) && selectedBeneficiary == old(selectedBeneficiary)
      ensures startDay == old(startDay) && startMonth == old(startMonth) && startYear == old(startYear)
      ensures isLoading == old(isLoading)
    {
      loadingModels := true;
      events := events + [ItemsRequested(ModelsQuery)];
      if outcome.Fetched? {
        contractModels := outcome.value;
      }
      loadingModels := false;
    }

    /** Day `d` of the day picker. */
    method PickDay(d: nat)
      requires 1 <= d <= 31
      modifies this
      ensures startDay == DayValue(d)
      ensures selectedModel == old(selectedModel) && startMonth == old(startMonth) && startYear == old(startYear)
      ensures selectedBeneficiary == old(selectedBeneficiary) && isLoading == old(isLoading) && loadingModels == old(loadingModels)
      ensures contractModels == old(contractModels) && events == old(events)
    {
      startDay := DayValue(d);
    }

    /** Entry `index` of the month picker. */
    method PickMonth(index: nat)
      requires index < 12
      modifies this
      ensures startMonth == MonthValue(index)
      ensures selectedModel == old(selectedModel) && startDay == old(startDay) && startYear == old(startYear)
      ensures selectedBeneficiary == old(selectedBeneficiary) && isLoading == old(isLoading) && loadingModels == old(loadingModels)
      ensures contractModels == old(contractModels) && events == old(events)
    {
      startMonth := MonthValue(index);
    }

    /** Typing the year. */
    method TypeYear(text: string)
      modifies this
      ensures startYear == text
      ensures selectedModel == old(selectedModel) && startDay == old(startDay) && startMonth == old(startMonth)
      ensures selectedBeneficiary == old(selectedBeneficiary) && isLoading == old(isLoading) && loadingModels == old(loadingModels)
      ensures contractModels == old(contractModels) && events == old(events)
    {
      startYear := text;
    }

    /** `handleSubmit` for the company `companyId`, given the outcome of the
        awaited save and whether the parent passed an `onSuccess`. The form is
        kept as it is in every case. */
    method HandleSubmit(companyId: int, saveSucceeds: bool, hasOnSuccess: bool)
      modifies this
      ensures events == old(events) + SubmitEvents(old(selectedModel), companyId, old(startYear), old(startMonth),
                                                   old(startDay), saveSucceeds, hasOnSuccess)
      ensures old(selectedModel) == [] ==> isLoading == old(isLoading)
      ensures old(selectedModel) != [] ==> !isLoading
      ensures selectedModel == old(selectedModel) && selectedBeneficiary == old(selectedBeneficiary)
      ensures startDay == old(startDay) && startMonth == old(startMonth) && startYear == old(startYear)
      ensures loadingModels == old(loadingModels) && contractModels == old(contractModels)
    {
      SubmitEventsCases(selectedModel, companyId, startYear, startMonth, startDay, saveSucceeds, hasOnSuccess);
      if selectedModel == "" {
        events := events + [Alerted(RequiredFieldsMessage)];
      } else {
        SubmitFilled(companyId, saveSucceeds, hasOnSuccess);
      }
    }

    /** `handleSubmit` past its guard: the save runs with loading on, the
        parent's callbacks or the failure alert follow, and loading ends false. */
    method SubmitFilled(companyId: int, saveSucceeds: bool, hasOnSuccess: bool)
      requires selectedModel != []
      modifies this
      ensures events == old(events) + SavedThen(true, SaveCalled(ProposalPayloadOf(old(selectedModel), companyId, old(startYear),
                                                                                   old(startMonth), old(startDay))),
                                                saveSucceeds, hasOnSuccess)
      ensures !isLoading
      ensures selectedModel == old(selectedModel) && selectedBeneficiary == old(selectedBeneficiary)
      ensures startDay == old(startDay) && startMonth == old(startMonth) && startYear == old(startYear)
      ensures loadingModels == old(loadingModels) && contractModels == old(contractModels)
    {
      isLoading := true;
      var save := SaveCalled(ProposalPayloadOf(selectedModel, companyId, startYear, startMonth, startDay));
      var emitted: seq<ModalEvent<ProposalPayload>>;
      if !saveSucceeds {
        emitted := [save, Alerted(FailedMessage)];
      } else if hasOnSuccess {
        emitted := [save, SuccessCallback, CloseCallback];
      } else {
        emitted := [save, CloseCallback];
      }
      events := events + emitted;
      isLoading := false;
    }

    /** `resetForm`: the five form fields are emptied. */
    method ResetForm()
      modifies this
      ensures FormCleared()
      ensures isLoading == old(isLoading) && loadingModels == old(loadingModels)
      ensures contractModels == old(contractModels) && events == old(events)
    {
      selectedModel, selectedBeneficiary := "", "";
      startDay, startMonth, startYear := "", "", "";
    }

    /** `handleClose`: the form is emptied, then the parent's `onClose` runs. */
    method HandleClose()
      modifies this
      ensures FormCleared()
      ensures events == old(events) + [CloseCallback]
      ensures isLoading == old(isLoading) && loadingModels == old(loadingModels)
      ensures contractModels == old(contractModels)
    {
      ResetForm();
      events := events + [CloseCallback];
    }
  }

  /** Picking a full start date logs nothing; a submit without a chosen model
      then gives only the required-fields alert and keeps the date. */
  method PickThenSubmitScenario(companyId: int) {
    var form := new CreateProposalsForm();
    form.PickDay(5);
    form.PickMonth(2);
    form.TypeYear("2024");
    assert form.events == [] && form.selectedBeneficiary == "";
    form.HandleSubmit(companyId, true, true);
    assert form.events == [Alerted(RequiredFieldsMessage)];
    assert form.startDay == DayValue(5) && form.startMonth == MonthValue(2) && form.startYear == "2024";
  }

  /** With a model chosen, the picked date 5 March 2024 is sent padded, and a
      successful save is followed by the parent's callbacks. */
  method PickChosenModelSubmitScenario(companyId: int, model: string)
    requires model != []
  {
    var form := new CreateProposalsForm();
    form.selectedModel := model;
    form.PickDay(5);
    form.PickMonth(2);
    form.TypeYear("2024");
    assert DayValue(5) == "5" && MonthValue(2) == "3";
    assert PadStart2("3") == "03" && PadStart2("5") == "05";
    assert "2024" + "-" + "03" + "-" + "05" == "2024-03-05";
    form.HandleSubmit(companyId, true, true);
    assert form.events == [SaveCalled(ProposalPayload(model, "people/" + IntToText(companyId), Some("2024-03-05"))),
                           SuccessCallback, CloseCallback];
  }
}
