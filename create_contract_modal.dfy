/** The "create contract" modal: it loads the contract models offered in its
    picker (one per distinct `@id` found among existing contracts, or a fixed
    list when loading fails), guards its submit on the three required
    fields, and composes the payload it saves. */
module CreateContractModal {
  import opened Options
  import opened JsText
  import opened StoreApi

  // ---------------------------------------------------------------------------
  // Loading the contract models

  /** A contract of the models query: `null`, or an object whose
      `contractModel` may be missing. */
  datatype ContractRecord = NullRecord | Record(contractModel: Option<ContractModel>)

  /** The resolved value of the models query: an array of contracts, or
      anything else (no value, an object). */
  datatype ModelsResponse = ArrayResponse(records: seq<ContractRecord>) | NonArrayResponse

  /** The query of `loadContractModels`. */
  const ModelsQuery: Params := map["contractModel.context" := Text("contract"), "limit" := Number(100)]

  /** The three models offered when loading fails. */
  const FallbackModels: seq<ContractModel> := [
    ContractModel(Some("/contract-models/1"), "Contrato de Serviços"),
    ContractModel(Some("/contract-models/2"), "Contrato de Locação"),
    ContractModel(Some("/contract-models/3"), "Contrato de Compra e Venda")
  ]

  /** The fallback list, like a loaded one, offers three models with an
      `@id` each and no `@id` twice. */
  lemma FallbackModelsDistinct()
    ensures |FallbackModels| == 3
    ensures forall i :: 0 <= i < |FallbackModels| ==> FallbackModels[i].atId.Some?
    ensures forall i, j :: 0 <= i < j < |FallbackModels| ==> FallbackModels[i].atId != FallbackModels[j].atId
  {
  }

  /** The record carries a model whose `@id` is `key`. */
  predicate HasKey(r: ContractRecord, key: Option<string>) {
    r.Record? && r.contractModel.Some? && r.contractModel.value.atId == key
  }

  /** The `@id`s of a list of models. */
  function Keys(ms: seq<ContractModel>): set<Option<string>> {
    set m | m in ms :: m.atId
  }

  lemma KeysAppend(ms: seq<ContractModel>, m: ContractModel)
    ensures Keys(ms + [m]) == Keys(ms) + {m.atId}
  {
    assert forall x :: x in ms + [m] <==> x in ms || x == m;
  }

  /** The position of the first record carrying a model with `@id` `key`;
      `|rs|` when there is none. */
  function FirstIndex(rs: seq<ContractRecord>, key: Option<string>): (f: nat)
    ensures f <= |rs|
    ensures forall j :: 0 <= j < f ==> !HasKey(rs[j], key)
    ensures f < |rs| ==> HasKey(rs[f], key)
  {
    if rs == [] then 0
    else
      var init := rs[..|rs| - 1];
      var f := FirstIndex(init, key);
      if f < |init| then f
      else if HasKey(rs[|rs| - 1], key) then |init|
      else |rs|
  }

  /** The unique-model extraction: the records are visited in order and a
      record's model is kept when it has one whose `@id` was not seen yet. */
  function UniqueModels(rs: seq<ContractRecord>): (u: seq<ContractModel>)
    ensures |u| <= |rs|
    ensures forall i, j :: 0 <= i < j < |u| ==> u[i].atId != u[j].atId
  {
    if rs == [] then []
    else
      var prev := UniqueModels(rs[..|rs| - 1]);
      var r := rs[|rs| - 1];
      if r.Record? && r.contractModel.Some? && r.contractModel.value.atId !in Keys(prev) then
        assert forall i :: 0 <= i < |prev| ==> prev[i].atId in Keys(prev);
        prev + [r.contractModel.value]
      else prev
  }

  /** The extraction keeps one model per `@id` carried by some record, and
      no other; records without a model are skipped. */
  lemma {:induction false} UniqueModelsKeys(rs: seq<ContractRecord>)
    ensures forall key :: key in Keys(UniqueModels(rs)) <==> FirstIndex(rs, key) < |rs|
  {
    if rs != [] {
      var init := rs[..|rs| - 1];
      var r := rs[|rs| - 1];
      var prev := UniqueModels(init);
      UniqueModelsKeys(init);
      if r.Record? && r.contractModel.Some? && r.contractModel.value.atId !in Keys(prev) {
        KeysAppend(prev, r.contractModel.value);
      } else {
        assert forall key :: HasKey(r, key) ==> key in Keys(prev);
      }
    }
  }

  /** A key first carried inside a prefix is first carried at the same place in the whole list. */
  lemma FirstIndexOfPrefix(rs: seq<ContractRecord>)
    requires rs != []
    ensures forall key :: FirstIndex(rs[..|rs| - 1], key) < |rs| - 1 ==> FirstIndex(rs, key) == FirstIndex(rs[..|rs| - 1], key)
  {
  }

  /** Each kept model is the model of the first record carrying its `@id`. */
  lemma {:induction false} UniqueModelsFirst(rs: seq<ContractRecord>)
    ensures forall k :: 0 <= k < |UniqueModels(rs)| ==>
              FirstIndex(rs, UniqueModels(rs)[k].atId) < |rs|
              && rs[FirstIndex(rs, UniqueModels(rs)[k].atId)].contractModel == Some(UniqueModels(rs)[k])
  {
    if rs != [] {
      var init := rs[..|rs| - 1];
      var r := rs[|rs| - 1];
      var prev := UniqueModels(init);
      var u := UniqueModels(rs);
      UniqueModelsFirst(init);
      FirstIndexOfPrefix(rs);
      if r.Record? && r.contractModel.Some? && r.contractModel.value.atId !in Keys(prev) {
        UniqueModelsKeys(init);
        assert FirstIndex(rs, r.contractModel.value.atId) == |init|;
      }
      forall k | 0 <= k < |u|
        ensures FirstIndex(rs, u[k].atId) < |rs| && rs[FirstIndex(rs, u[k].atId)].contractModel == Some(u[k])
      {
        if k < |prev| {
          assert u[k] == prev[k];
          assert FirstIndex(init, prev[k].atId) < |init|;
          var f := FirstIndex(init, prev[k].atId);
          assert rs[f] == init[f];
        }
      }
    }
  }

  /** The kept models come in the order in which their `@id`s first appear. */
  lemma {:induction false} UniqueModelsOrder(rs: seq<ContractRecord>)
    ensures forall i, j :: 0 <= i < j < |UniqueModels(rs)| ==>
              FirstIndex(rs, UniqueModels(rs)[i].atId) < FirstIndex(rs, UniqueModels(rs)[j].atId)
  {
    if rs != [] {
      var init := rs[..|rs| - 1];
      var r := rs[|rs| - 1];
      var prev := UniqueModels(init);
      var u := UniqueModels(rs);
      UniqueModelsOrder(init);
      UniqueModelsFirst(init);
      FirstIndexOfPrefix(rs);
      if r.Record? && r.contractModel.Some? && r.contractModel.value.atId !in Keys(prev) {
        UniqueModelsKeys(init);
        assert FirstIndex(rs, r.contractModel.value.atId) == |init|;
      }
      forall i, j | 0 <= i < j < |u|
        ensures FirstIndex(rs, u[i].atId) < FirstIndex(rs, u[j].atId)
      {
        assert u[i] == prev[i];
        if j < |prev| {
          assert u[j] == prev[j];
        }
      }
    }
  }

  /** The models list `loadContractModels` leaves behind for a query outcome.
      A `null` record makes reading its `contractModel` throw, which the
      same `catch` as a failed query turns into the fallback list. */
  function LoadedModels(outcome: FetchOutcome<ModelsResponse>): (r: seq<ContractModel>)
    ensures outcome.FetchFailed? ==> r == FallbackModels
    ensures outcome == Fetched(NonArrayResponse) ==> r == []
    ensures outcome.Fetched? && outcome.value.ArrayResponse? ==>
              r == if NullRecord in outcome.value.records then FallbackModels else UniqueModels(outcome.value.records)
  {
    match outcome
    case FetchFailed => FallbackModels
    case Fetched(NonArrayResponse) => []
    case Fetched(ArrayResponse(rs)) => if NullRecord in rs then FallbackModels else UniqueModels(rs)
  }

  /** Models without an `@id` all share the one missing key: of two of
      them, only the first is kept, whatever their names. */
  lemma MissingIdsKeepFirst(x: string, y: string)
    ensures UniqueModels([Record(Some(ContractModel(None, x))), Record(Some(ContractModel(None, y)))])
         == [ContractModel(None, x)]
  {
    var rs := [Record(Some(ContractModel(None, x))), Record(Some(ContractModel(None, y)))];
    assert rs[..1] == [rs[0]] && rs[..1][..0] == [];
    assert UniqueModels(rs[..1]) == [ContractModel(None, x)];
    assert None in Keys([ContractModel(None, x)]);
  }

  /** The `forEach` over the contracts, with the `Set` of seen `@id`s and the
      `uniqueModels` array it pushes onto; `threw` reports the TypeError of a
      `null` contract, which abandons the loop. */
  method ExtractUniqueModels(rs: seq<ContractRecord>) returns (unique: seq<ContractModel>, threw: bool)
    ensures threw <==> NullRecord in rs
    ensures !threw ==> unique == UniqueModels(rs)
  {
    var modelIds: set<Option<string>> := {};
    unique, threw := [], false;
    var i := 0;
    while i < |rs| && !threw
      invariant 0 <= i <= |rs|
      invariant !threw ==> unique == UniqueModels(rs[..i]) && modelIds == Keys(unique) && NullRecord !in rs[..i]
      invariant threw ==> NullRecord in rs
      decreases |rs| - i, !threw
    {
      var contract := rs[i];
      assert rs[..i + 1][..i] == rs[..i];
      if contract.NullRecord? {
        threw := true;
      } else {
        if contract.contractModel.Some? && contract.contractModel.value.atId !in modelIds {
          KeysAppend(unique, contract.contractModel.value);
          modelIds := modelIds + {contract.contractModel.value.atId};
          unique := unique + [contract.contractModel.value];
        }
        i := i + 1;
      }
    }
    if !threw {
      assert rs[..i] == rs;
    }
  }

  // ---------------------------------------------------------------------------
  // Submit

  const RequiredFieldsMessage := "Por favor, preencha todos os campos obrigatórios."
  const CreatedMessage := "Contrato criado com sucesso!"
  const FailedMessage := "Erro ao criar contrato. Tente novamente."

  /** A date field of the payload: a text from the form, or
      `new Date().toISOString()` at the time of the submit. */
  datatype Timestamp = Literal(text: string) | CurrentTime

  /** The object given to the contracts store's `save`; None stands for a
      field left `undefined`. */
  datatype ContractPayload = ContractPayload(
    contractModel: string, status: string, beneficiary: string,
    docKey: Option<string>, startDate: Timestamp, endDate: Option<string>,
    creationDate: Timestamp, alterDate: Timestamp, peoples: seq<string>)

  /** The three fields the guard requires. */
  predicate RequiredFilled(model: string, beneficiary: string, status: string) {
    model != [] && beneficiary != [] && status != []
  }

  /** The submit button is enabled unless a save is running or a required field is empty. */
  function SubmitEnabled(isLoading: bool, model: string, beneficiary: string, status: string): (r: bool)
    ensures r <==> !isLoading && RequiredFilled(model, beneficiary, status)
  {
    !(isLoading || model == [] || beneficiary == [] || status == [])
  }

  /** The payload of a submit: the trimmed document key or nothing when it is
      blank, the start date or now, the end date or nothing, creation and
      alteration at the present time, and no people yet. */
  function ContractPayloadOf(model: string, status: string, beneficiary: string,
                             docKey: string, startDate: string, endDate: string): (p: ContractPayload)
    ensures p.contractModel == model && p.status == status && p.beneficiary == beneficiary
    ensures p.docKey.None? <==> Blank(docKey)
    ensures p.docKey.Some? ==> p.docKey.value == Trim(docKey) && p.docKey.value != []
    ensures p.startDate == (if startDate == [] then CurrentTime else Literal(startDate))
    ensures p.endDate.None? <==> endDate == []
    ensures p.endDate.Some? ==> p.endDate.value == endDate
    ensures p.creationDate == CurrentTime && p.alterDate == CurrentTime
    ensures p.peoples == []
  {
    var key := Trim(docKey);
    ContractPayload(model, status, beneficiary,
                    if key != [] then Some(key) else None,
                    if startDate != [] then Literal(startDate) else CurrentTime,
                    if endDate != [] then Some(endDate) else None,
                    CurrentTime, CurrentTime, [])
  }

  /** Blanks around the document key never reach the payload. */
  lemma PayloadIgnoresKeyPadding(model: string, status: string, beneficiary: string,
                                 docKey: string, startDate: string, endDate: string)
    ensures ContractPayloadOf(model, status, beneficiary, docKey, startDate, endDate)
         == ContractPayloadOf(model, status, beneficiary, Trim(docKey), startDate, endDate)
  {
    TrimIdempotent(docKey);
  }

  /** What a press on "Criar" does: the guard's alert, or one save followed
      by its alert and, on success, the parent's callbacks. */
  function SubmitEvents(model: string, status: string, beneficiary: string, docKey: string,
                        startDate: string, endDate: string, saveSucceeds: bool, hasOnSuccess: bool)
    : (r: seq<ModalEvent<ContractPayload>>)
    ensures !RequiredFilled(model, beneficiary, status) ==> r == [Alerted(RequiredFieldsMessage)]
    ensures RequiredFilled(model, beneficiary, status) ==>
              |r| >= 2 && r[0] == SaveCalled(ContractPayloadOf(model, status, beneficiary, docKey, startDate, endDate))
    ensures RequiredFilled(model, beneficiary, status) && saveSucceeds ==>
              r[1] == Alerted(CreatedMessage) && r[|r| - 1] == CloseCallback
    ensures RequiredFilled(model, beneficiary, status) && !saveSucceeds ==> r[1..] == [Alerted(FailedMessage)]
  {
    var save := SaveCalled(ContractPayloadOf(model, status, beneficiary, docKey, startDate, endDate));
    SavedThen(RequiredFilled(model, beneficiary, status), save, saveSucceeds, hasOnSuccess)
  }

  /** `SubmitEvents` on each side of the guard, for the form's methods. */
  lemma SubmitEventsCases(model: string, status: string, beneficiary: string, docKey: string,
                          startDate: string, endDate: string, saveSucceeds: bool, hasOnSuccess: bool)
    ensures SubmitEvents(model, status, beneficiary, docKey, startDate, endDate, saveSucceeds, hasOnSuccess)
         == SavedThen(RequiredFilled(model, beneficiary, status),
                      SaveCalled(ContractPayloadOf(model, status, beneficiary, docKey, startDate, endDate)),
                      saveSucceeds, hasOnSuccess)
  {
  }

  /** The events of a submit once the guard's verdict and the save are known. */
  function SavedThen(guard: bool, save: ModalEvent<ContractPayload>, saveSucceeds: bool, hasOnSuccess: bool)
    : (r: seq<ModalEvent<ContractPayload>>)
    ensures !guard ==> r == [Alerted(RequiredFieldsMessage)]
    ensures guard ==> |r| >= 2 && r[0] == save
    ensures guard && saveSucceeds ==> r[1] == Alerted(CreatedMessage) && r[|r| - 1] == CloseCallback
    ensures guard && !saveSucceeds ==> r[1..] == [Alerted(FailedMessage)]
  {
    if !guard then [Alerted(RequiredFieldsMessage)]
    else if !saveSucceeds then [save, Alerted(FailedMessage)]
    else if hasOnSuccess then [save, Alerted(CreatedMessage), SuccessCallback, CloseCallback]
    else [save, Alerted(CreatedMessage), CloseCallback]
  }

  /** The save event comes first, and only there, exactly when the guard passed. */
  lemma SavedThenSavesOnce(guard: bool, save: ModalEvent<ContractPayload>, saveSucceeds: bool, hasOnSuccess: bool)
    requires save.SaveCalled?
    ensures var r := SavedThen(guard, save, saveSucceeds, hasOnSuccess);
            (r[0].SaveCalled? <==> guard)
            && forall k :: 1 <= k < |r| ==> !r[k].SaveCalled?
  {
    var r := SavedThen(guard, save, saveSucceeds, hasOnSuccess);
    if !guard {
      assert r == [Alerted(RequiredFieldsMessage)];
    } else if !saveSucceeds {
      assert r == [save, Alerted(FailedMessage)];
    } else if hasOnSuccess {
      assert r == [save, Alerted(CreatedMessage), SuccessCallback, CloseCallback];
    } else {
      assert r == [save, Alerted(CreatedMessage), CloseCallback];
    }
  }

  /** The callbacks come exactly after a successful save. */
  lemma SavedThenCallbacks(guard: bool, save: ModalEvent<ContractPayload>, saveSucceeds: bool, hasOnSuccess: bool)
    requires save.SaveCalled?
    ensures var r := SavedThen(guard, save, saveSucceeds, hasOnSuccess);
            (CloseCallback in r <==> guard && saveSucceeds)
            && (SuccessCallback in r <==> guard && saveSucceeds && hasOnSuccess)
  {
    var r := SavedThen(guard, save, saveSucceeds, hasOnSuccess);
    if !guard {
      assert r == [Alerted(RequiredFieldsMessage)];
    } else if !saveSucceeds {
      assert r == [save, Alerted(FailedMessage)];
    } else if hasOnSuccess {
      assert r == [save, Alerted(CreatedMessage), SuccessCallback, CloseCallback];
      assert r[3] == CloseCallback && r[2] == SuccessCallback;
    } else {
      assert r == [save, Alerted(CreatedMessage), CloseCallback];
      assert r[2] == CloseCallback;
    }
  }

  /** A submit that passes the guard saves exactly once, as its first event;
      one that does not never saves. */
  lemma GuardDecidesSave(model: string, status: string, beneficiary: string, docKey: string,
                         startDate: string, endDate: string, saveSucceeds: bool, hasOnSuccess: bool)
    ensures var r := SubmitEvents(model, status, beneficiary, docKey, startDate, endDate, saveSucceeds, hasOnSuccess);
            (r[0].SaveCalled? <==> RequiredFilled(model, beneficiary, status))
            && forall k :: 1 <= k < |r| ==> !r[k].SaveCalled?
  {
    SavedThenSavesOnce(RequiredFilled(model, beneficiary, status),
                       SaveCalled(ContractPayloadOf(model, status, beneficiary, docKey, startDate, endDate)), saveSucceeds, hasOnSuccess);
  }

  /** The parent's callbacks run only after a successful save: `onClose`
      always then, `onSuccess` when the parent passed one. */
  lemma CallbacksOnlyOnSuccess(model: string, status: string, beneficiary: string, docKey: string,
                               startDate: string, endDate: string, saveSucceeds: bool, hasOnSuccess: bool)
    ensures var r := SubmitEvents(model, status, beneficiary, docKey, startDate, endDate, saveSucceeds, hasOnSuccess);
            (CloseCallback in r <==> RequiredFilled(model, beneficiary, status) && saveSucceeds)
            && (SuccessCallback in r <==> RequiredFilled(model, beneficiary, status) && saveSucceeds && hasOnSuccess)
  {
    SavedThenCallbacks(RequiredFilled(model, beneficiary, status),
                       SaveCalled(ContractPayloadOf(model, status, beneficiary, docKey, startDate, endDate)), saveSucceeds, hasOnSuccess);
  }

  // ---------------------------------------------------------------------------
  // The modal's state

  class CreateContractForm {
    var selectedModel: string
    var selectedStatus: string
    var selectedBeneficiary: string
    var docKey: string
    var startDate: string
    var endDate: string
    var isLoading: bool
    var loadingModels: bool
    var contractModels: seq<ContractModel>
    var events: seq<ModalEvent<ContractPayload>>

    ghost predicate FormCleared()
      reads this
    {
      selectedModel == "" && selectedStatus == "" && selectedBeneficiary == ""
      && docKey == "" && startDate == "" && endDate == ""
    }

    constructor ()
      ensures FormCleared() && !isLoading && !loadingModels && contractModels == [] && events == []
    {
      selectedModel, selectedStatus, selectedBeneficiary := "", "", "";
      docKey, startDate, endDate := "", "", "";
      isLoading, loadingModels := false, false;
      contractModels, events := [], [];
    }

    /** `loadContractModels`, given the outcome of its query. */
    method LoadContractModels(outcome: FetchOutcome<ModelsResponse>)
      modifies this
      ensures contractModels == LoadedModels(outcome)
      ensures !loadingModels
      ensures events == old(events) + [ItemsRequested(ModelsQuery)]
      ensures selectedModel == old(selectedModel) && selectedStatus == old(selectedStatus)
      ensures selectedBeneficiary == old(selectedBeneficiary) && docKey == old(docKey)
      ensures startDate == old(startDate) && endDate == old(endDate) && isLoading == old(isLoading)
    {
      loadingModels := true;
      events := events + [ItemsRequested(ModelsQuery)];
      var threw := false;
      var unique: seq<ContractModel> := [];
      match outcome {
        case FetchFailed =>
          threw := true;
        case Fetched(NonArrayResponse) =>
        case Fetched(ArrayResponse(rs)) =>
          unique, threw := ExtractUniqueModels(rs);
      }
      contractModels := if threw then FallbackModels else unique;
      loadingModels := false;
    }

    /** `resetForm`: the six form fields are emptied. */
    method ResetForm()
      modifies this
      ensures FormCleared()
      ensures isLoading == old(isLoading) && loadingModels == old(loadingModels)
      ensures contractModels == old(contractModels) && events == old(events)
    {
      selectedModel, selectedStatus, selectedBeneficiary := "", "", "";
      docKey, startDate, endDate := "", "", "";
    }

    /** `handleClose`: the form is emptied, then the parent's `onClose` runs. */
    method HandleClose()
      modifies this
      ensures FormCleared()
      ensures events == old(events) + [CloseCallback]
      ensures isLoading == old(isLoading) && loadingModels == old(loadingModels)
      ensures contractModels == old(contractModels)
    {
      ResetForm();
      events := events + [CloseCallback];
    }

    /** `handleSubmit`, given the outcome of the awaited save and whether the
        parent passed an `onSuccess`. The form is emptied only after a
        successful save; past the guard, `isLoading` ends false. */
    method HandleSubmit(saveSucceeds: bool, hasOnSuccess: bool)
      modifies this
      ensures events == old(events) + SubmitEvents(old(selectedModel), old(selectedStatus), old(selectedBeneficiary),
                                                   old(docKey), old(startDate), old(endDate), saveSucceeds, hasOnSuccess)
      ensures !RequiredFilled(old(selectedModel), old(selectedBeneficiary), old(selectedStatus)) ==> isLoading == old(isLoading)
      ensures RequiredFilled(old(selectedModel), old(selectedBeneficiary), old(selectedStatus)) ==> !isLoading
      ensures RequiredFilled(old(selectedModel), old(selectedBeneficiary), old(selectedStatus)) && saveSucceeds ==> FormCleared()
      ensures !(RequiredFilled(old(selectedModel), old(selectedBeneficiary), old(selectedStatus)) && saveSucceeds) ==>
                selectedModel == old(selectedModel) && selectedStatus == old(selectedStatus)
                && selectedBeneficiary == old(selectedBeneficiary) && docKey == old(docKey)
                && startDate == old(startDate) && endDate == old(endDate)
      ensures loadingModels == old(loadingModels) && contractModels == old(contractModels)
    {
      SubmitEventsCases(selectedModel, selectedStatus, selectedBeneficiary, docKey, startDate, endDate, saveSucceeds, hasOnSuccess);
      if selectedModel == "" || selectedBeneficiary == "" || selectedStatus == "" {
        events := events + [Alerted(RequiredFieldsMessage)];
      } else {
        SubmitFilled(saveSucceeds, hasOnSuccess);
      }
    }

    /** `handleSubmit` past its guard: the save runs with loading on, and
        loading ends false. */
    method SubmitFilled(saveSucceeds: bool, hasOnSuccess: bool)
      requires RequiredFilled(selectedModel, selectedBeneficiary, selectedStatus)
      modifies this
      ensures events == old(events) + SavedThen(true, SaveCalled(ContractPayloadOf(old(selectedModel), old(selectedStatus),
                                                  old(selectedBeneficiary), old(docKey), old(startDate), old(endDate))),
                                                saveSucceeds, hasOnSuccess)
      ensures !isLoading
      ensures saveSucceeds ==> FormCleared()
      ensures !saveSucceeds ==>
                selectedModel == old(selectedModel) && selectedStatus == old(selectedStatus)
                && selectedBeneficiary == old(selectedBeneficiary) && docKey == old(docKey)
                && startDate == old(startDate) && endDate == old(endDate)
      ensures loadingModels == old(loadingModels) && contractModels == old(contractModels)
    {
      isLoading := true;
      var save := SaveCalled(ContractPayloadOf(selectedModel, selectedStatus, selectedBeneficiary, docKey, startDate, endDate));
      AfterSave(save, saveSucceeds, hasOnSuccess);
      isLoading := false;
    }

    /** The `try` block once the payload is built: the save, then on success
        the alert, the form emptied and the parent's callbacks, on failure the
        error alert. */
    method AfterSave(save: ModalEvent<ContractPayload>, saveSucceeds: bool, hasOnSuccess: bool)
      modifies this
      ensures events == old(events) + SavedThen(true, save, saveSucceeds, hasOnSuccess)
      ensures saveSucceeds ==> FormCleared()
      ensures !saveSucceeds ==>
                selectedModel == old(selectedModel) && selectedStatus == old(selectedStatus)
                && selectedBeneficiary == old(selectedBeneficiary) && docKey == old(docKey)
                && startDate == old(startDate) && endDate == old(endDate)
      ensures isLoading == old(isLoading) && loadingModels == old(loadingModels)
      ensures contractModels == old(contractModels)
    {
      var emitted: seq<ModalEvent<ContractPayload>>;
      if saveSucceeds {
        ResetForm();
        emitted := if hasOnSuccess then [save, Alerted(CreatedMessage), SuccessCallback, CloseCallback]
                   else [save, Alerted(CreatedMessage), CloseCallback];
      } else {
        emitted := [save, Alerted(FailedMessage)];
      }
      events := events + emitted;
    }
  }
}
