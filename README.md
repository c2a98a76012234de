# ui-crm core, modelled in Dafny

This project models the CRM screens of ControleOnline's `ui-crm` (React
Native) together with the column formatters of its contract-models store.
The screens covered are the opportunities list, the proposals list, the two
"create contract" modals and the opportunity conversation. For each, the
model states and proves what the screen sends to the shared stores and
what it shows.

- `options.dfy` (`Options`): the `Option` type.
- `js_text.dfy` (`JsText`): the JavaScript string built-ins the screens use,
  written out:
  - trimming, over the whitespace set of ECMA-262 sections 12.2 and 12.3;
  - `padStart(2, '0')` and number-to-text;
  - `parseInt`, with its hexadecimal prefix and trailing garbage;
  - `split('/').pop()`;
  - the two `replace` expressions;
  - ASCII lower-casing.
- `store_api.dfy` (`StoreApi`): the shapes exchanged with the stores:
  - `getItems` parameter maps;
  - the outcome of an awaited store call;
  - the contract-model references;
  - what a modal does that is seen from outside it: an alert, a store
    call, or a parent callback.
- `list_paging.dfy` (`ListPaging`): the pagination that both list screens
  implement with identical code. This covers the page count, the
  Previous/Next handlers and their disabled conditions, the page-size
  dropdown, the effect that returns to page 1, and the list requests the
  focus effect makes as the search text, page and page size change.
- `crm_opportunities.dfy` (`CrmOpportunities`), the opportunities screen:
  - the query parameters;
  - the stage tables;
  - the date assembled from the picker components, and the pickers
    themselves;
  - the phone list: parsing the `announce` field, editing the list, and
    serialising it into the save payload;
  - the two save handlers.

  The screen's state is a class whose drafts are values, each replaced as
  a whole as React state is.
- `proposals_screen.dfy` (`ProposalsScreen`): the proposals screen's query
  and refetch parameters, its status colours, and what its body shows.
- `create_contract_modal.dfy` (`CreateContractModal`), the "create contract"
  modal:
  - extracting unique contract models, as a loop with its invariant,
    proved against a reference function;
  - the fallback list;
  - the guarded submit and its payload.
- `create_proposals_modal.dfy` (`CreateProposalsModal`): the "create
  proposal" modal, covering its date parts, its submit and its payload.
- `crm_conversation.dfy` (`CrmConversation`), the conversation screen:
  - turning task interactions into a sorted thread of messages;
  - the day separators;
  - sending a comment.
- `model_store.dfy` (`ModelStore`): the `id`, `category`, `signer` and
  `file` column formatters of the contract-models store, and their round
  trips.

Interactions with the outside world enter the model as parameters:

- the outcome of each awaited store call;
- what `JSON.parse` makes of a text;
- today's date components;
- the day label the clock gives a timestamp.

Store calls and alerts are appended to an `events` log on the screen or
modal that makes them.

## Model

| member | source | states |
|---|---|---|
| `CrmOpportunities.OpportunityParams` | src/react/pages/crm/index.js:66-79 | the opportunities request of the focus effect, of pull-to-refresh and of the refetch after a creation; its keys and values are stated by the three lemmas below |
| `CrmOpportunities.OpportunityParamsFixed` | src/react/pages/crm/index.js:66-74 | every opportunities request asks for `relationship` tasks with the current company as `provider_id` and as `provider`, and for the current page and page size |
| `CrmOpportunities.OpportunityParamsSearch` | src/react/pages/crm/index.js:76-79 | `client.name` is sent exactly when the search text holds more than blanks, and it is then the trimmed text; no key other than these six is ever sent |
| `CrmOpportunities.OpportunityParamsIgnorePadding` | src/react/pages/crm/index.js:118-130 | blanks around the search text never change the request, and a blank search text gives the same request as an empty one |
| `CrmOpportunities.WithClientNameIgnorePadding` | src/react/pages/crm/index.js:76-79 | the client-name filter reads only the trimmed search text and adds nothing for a blank one |
| `CrmOpportunities.StageColor` | src/react/pages/crm/index.js:136-144 | a colour is always `#` and six characters; the grey default is given exactly to statuses outside open/closed/pending/cancelled |
| `CrmOpportunities.StageLabel` | src/react/pages/crm/index.js:146-154 | a status outside the table is shown as it is; a known status, and only a known status, gets one of the four Portuguese labels |
| `CrmOpportunities.FormatDateFromComponents` | src/react/pages/crm/index.js:185-190 | the result is empty exactly when one component is missing; otherwise it starts with the year and its length is that of `year-mm-dd` with month and day padded |
| `CrmOpportunities.PaddingKeepsLongParts` | src/react/pages/crm/index.js:185-190 | components of two or more characters are joined unchanged |
| `CrmOpportunities.DayOptions` | src/react/pages/crm/index.js:192-197 | 31 entries, entry i being the padded text of i + 1 as both id and name |
| `CrmOpportunities.MonthOptions` | src/react/pages/crm/index.js:199-218 | 12 entries, entry i with the padded text of i + 1 as id and the i-th Portuguese month name |
| `CrmOpportunities.PickerIdsAreTwoDigits` | src/react/pages/crm/index.js:192-218 | every day and month id is two digits whose value is its position plus one, and padding leaves it as it is |
| `CrmOpportunities.DayId` | src/react/pages/crm/index.js:1503-1521 | the value stored by day entry k is the entry's id, two digits worth k + 1 |
| `CrmOpportunities.MonthId` | src/react/pages/crm/index.js:1523-1541 | the value stored by month entry k is the entry's id, two digits worth k + 1 |
| `CrmOpportunities.PickedDateIsIso` | src/react/pages/crm/index.js:185-218 | any picked day and month, with a year, assemble to `year-mm-dd` of exactly those values |
| `CrmOpportunities.ParsePhoneNumbers` | src/react/pages/crm/index.js:224-235 | no text gives no phones; a JSON array gives its elements; another JSON value gives none; a text that is not JSON gives its trimmed self as the one phone, or nothing when it is blank |
| `CrmOpportunities.ValidPhones` | src/react/pages/crm/index.js:276-278 | a phone is kept exactly when its trimmed text is non-empty, and nothing else is added |
| `CrmOpportunities.ValidPhonesConcat` | src/react/pages/crm/index.js:276-278 | the filter distributes over concatenation, so kept phones keep their order |
| `CrmOpportunities.ValidPhonesIdempotent` | src/react/pages/crm/index.js:276-278 | filtering the kept phones again keeps them all |
| `CrmOpportunities.PhoneData` | src/react/pages/crm/index.js:276-280 | the announce field is '' exactly when every input is blank; otherwise it is a non-empty JSON list holding exactly the non-blank inputs |
| `CrmOpportunities.ReloadSavedPhones` | src/react/pages/crm/index.js:224-235 | reopening a saved opportunity shows exactly the phones that were kept on save |
| `CrmOpportunities.LegacyPhoneSurvivesSave` | src/react/pages/crm/index.js:231-233 | a legacy plain-text phone that `JSON.parse` rejects is saved back as a one-element JSON list of that trimmed phone |
| `CrmOpportunities.RemoveAt` | src/react/pages/crm/index.js:396-408 | the filter on the index drops exactly the entry at the index, and drops nothing for an index outside the list |
| `CrmOpportunities.UpdateAt` | src/react/pages/crm/index.js:410-422 | the map on the index replaces exactly the entry at the index, and replaces nothing for an index outside the list |
| `CrmOpportunities.AddedBlankNotSaved` | src/react/pages/crm/index.js:382-394 | an added empty input never changes what a save sends |
| `CrmOpportunities.RemovedPhoneNotSaved` | src/react/pages/crm/index.js:396-408 | after a removal a save sends the kept phones before and after the removed input |
| `CrmOpportunities.UpdatedPhoneSaved` | src/react/pages/crm/index.js:410-422 | after an update a save sends the new text in place of the old one, unless the new text is blank |
| `CrmOpportunities.ResolveRef` | src/react/pages/crm/index.js:284-296 | a reference resolves to its `@id` when it has one, otherwise to its `id`, and to nothing when it is absent |
| `CrmOpportunities.NewDraft` | src/react/pages/crm/index.js:1210-1218 | the new-opportunity draft has no phones and no references, and is due today |
| `CrmOpportunities.EditDraft` | src/react/pages/crm/index.js:237-260 | the edit draft copies the opportunity's references; a missing due-date component falls back to today; the alter date is copied; the phones are those parsed from `announce` |
| `CrmOpportunities.WithPhoneAdded` | src/react/pages/crm/index.js:382-394 | appends one empty input, leaves every other field alone, and leaves the saved announce unchanged |
| `CrmOpportunities.WithPhoneRemoved` | src/react/pages/crm/index.js:396-408 | only the phone list changes; a save then sends the kept phones on either side of the removed input |
| `CrmOpportunities.WithPhoneUpdated` | src/react/pages/crm/index.js:410-422 | only the phone list changes; a save then sends the new value in place of the old one |
| `CrmOpportunities.EditPayloadOf` | src/react/pages/crm/index.js:264-301 | the edit payload carries the id, the resolved references, both assembled dates, the serialised phones and the provider id |
| `CrmOpportunities.NewPayloadOf` | src/react/pages/crm/index.js:316-344 | the new payload carries the resolved client also as `registeredBy`, type `relationship`, the due date, the serialised phones and `/people/` plus the company id |
| `CrmOpportunities.EditWithoutChangeKeepsLegacyPhone` | src/react/pages/crm/index.js:237-302 | opening an opportunity whose legacy plain-text phone `JSON.parse` rejects, and saving it unchanged, sends that phone as a one-element JSON list |
| `CrmOpportunities.EditWithoutChangeErasesNonArrayAnnounce` | src/react/pages/crm/index.js:224-280 | an `announce` that `JSON.parse` reads as something other than an array, such as a phone of digits only read as a number, shows no phone, and saving unchanged sends `announce` as '', erasing it |
| `CrmOpportunities.SentPayload` | src/react/pages/crm/index.js:302-346 | exactly the two save events send a payload: the edit payload or the new payload of the recorded draft |
| `CrmOpportunities.OpportunitiesScreen.constructor` | src/react/pages/crm/index.js:23-26 | no drafts, both modals closed, nothing sent |
| `CrmOpportunities.OpportunitiesScreen.OpenEdit` | src/react/pages/crm/index.js:237-260 | the edit draft becomes the opportunity's draft and only the edit modal opens |
| `CrmOpportunities.OpportunitiesScreen.OpenNew` | src/react/pages/crm/index.js:1210-1218 | the new draft is set and only the new-opportunity modal opens |
| `CrmOpportunities.OpportunitiesScreen.AddPhoneInput` | src/react/pages/crm/index.js:382-394 | the chosen draft gets one more empty input; the other draft, the modals and the log are unchanged |
| `CrmOpportunities.OpportunitiesScreen.RemovePhoneInput` | src/react/pages/crm/index.js:396-408 | the chosen draft loses input `index`; nothing else changes |
| `CrmOpportunities.OpportunitiesScreen.UpdatePhoneInput` | src/react/pages/crm/index.js:410-422 | input `index` of the chosen draft holds the value; nothing else changes |
| `CrmOpportunities.OpportunitiesScreen.ChangePhoneText` | src/react/pages/crm/index.js:614-618 | input `index` of the chosen draft holds `DigitsOnly` of the typed text, which keeps exactly its digits, each as often as it occurs and in their order (see `JsText.DigitsOnlyCounts` and `JsText.DigitsOnlyConcat`); nothing else changes |
| `CrmOpportunities.OpportunitiesScreen.PickDueDay` | src/react/pages/crm/index.js:1512-1518 | the due day of the edit draft while the edit modal is open, of the new draft otherwise, becomes the two-digit picked day |
| `CrmOpportunities.OpportunitiesScreen.PickDueMonth` | src/react/pages/crm/index.js:1532-1538 | as for the due day, with the picked month |
| `CrmOpportunities.OpportunitiesScreen.PickAlterDay` | src/react/pages/crm/index.js:1553-1559 | the `onSelect` callback of the alter-date day picker: as for the due day, on the alter date; no control of the screen opens this picker |
| `CrmOpportunities.OpportunitiesScreen.PickAlterMonth` | src/react/pages/crm/index.js:1571-1577 | the `onSelect` callback of the alter-date month picker: as for the due month, on the alter date; no control of the screen opens this picker |
| `CrmOpportunities.OpportunitiesScreen.HandleSaveEdit` | src/react/pages/crm/index.js:262-312 | with no draft, only the error alert; otherwise one save of the draft and then either the success alert, with the draft cleared and the modal closed, or the error alert with everything else kept |
| `CrmOpportunities.OpportunitiesScreen.HandleSaveNewOpportunity` | src/react/pages/crm/index.js:314-371 | as for the edit, and on success the list is requested again with the current page, page size and search text |
| `CrmOpportunities.NewOpportunityRefetchScenario` | src/react/pages/crm/index.js:346-366 | after a search and a press on Next, a successful create refetches with the list's own page, page size and search text, the same values as the list's latest request |
| `ListPaging.LastPage` | src/react/pages/crm/index.js:1368-1369 | `ceil(total / perPage)`: the least page count whose pages hold every item, and zero only when there are no items |
| `ListPaging.PreviousPage` | src/react/pages/crm/index.js:1336-1340 | `max(1, page - 1)` |
| `ListPaging.NextPage` | src/react/pages/crm/index.js:1373-1381 | `min(last, page + 1)`: never beyond the last page, and one on when the page is before it |
| `ListPaging.ControlsShownIffSeveralPages` | src/react/pages/crm/index.js:1317-1317 | the controls are rendered exactly when there are at least two pages |
| `ListPaging.FirstPageOfSeveral` | src/react/pages/crm/index.js:1336-1385 | when the controls are shown, page 1 has Previous disabled and Next enabled |
| `ListPaging.ControlsShown` | src/react/pages/crm/index.js:1317-1317 | the condition on which the pagination controls are rendered; `ControlsShownIffSeveralPages` states what it means |
| `ListPaging.PagerDrawn` | src/react/pages/crm/index.js:1296-1317 | the pager is drawn only below a shown, non-empty list, and only when there are more items than one page holds |
| `ListPaging.EmptyPageScenario` | src/react/pages/crm/index.js:1296-1341 | on page 2 of 15 items whose page came back empty, a press does nothing; once the list is shown again it moves to page 1 |
| `ListPaging.PrevDisabled` | src/react/pages/crm/index.js:1340-1340 | "Anterior" is disabled on page 1 |
| `ListPaging.NextDisabled` | src/react/pages/crm/index.js:1382-1384 | "Próxima" is disabled from the last page on; `FirstPageOfSeveral` states it is enabled on page 1 whenever the controls show |
| `ListPaging.PageLabel` | src/react/pages/crm/index.js:1368-1369 | the caption `Página p de n`, n being `LastPage` |
| `ListPaging.ListState.constructor` | src/react/pages/crm/index.js:34-91 | empty search, page 1, ten per page, and the one request made when the screen is first shown |
| `ListPaging.ListState.PressPrevious` | src/react/pages/crm/index.js:1336-1341 | a press moves to the previous page and requests it exactly when the pager is drawn (a shown, non-empty list with several pages) and Previous is enabled, otherwise nothing changes; the page never grows and stays within the page count; the latest request matches the state |
| `ListPaging.ListState.PressNext` | src/react/pages/crm/index.js:1373-1385 | a press moves to the next page and requests it exactly when the pager is drawn (a shown, non-empty list with several pages) and Next is enabled, otherwise nothing changes; the page never shrinks and does not pass the page count; the latest request matches the state |
| `ListPaging.ListState.ChangeSearchText` | src/react/pages/crm/index.js:66-95 | a changed search text is first requested with the page as it was, then, when that page was not 1, again on page 1, where the state ends; retyping the same text changes and requests nothing |
| `ListPaging.ListState.SelectPageSize` | src/react/pages/crm/index.js:1610-1616 | the chosen size is set, the page returns to 1, and one request is made exactly when the size or the page changed |
| `ProposalsScreen.ProposalParams` | src/react/pages/proposals/index.js:32-48 | the proposals request of the focus effect; its keys and values are stated by the lemmas below |
| `ProposalsScreen.RefetchParams` | src/react/pages/proposals/index.js:54-69 | the request after a creation; `RefetchAddsContractModel` relates it to the focus request |
| `ProposalsScreen.ProposalParamsFixed` | src/react/pages/proposals/index.js:34-39 | every request asks for proposal contracts of the current company as beneficiary, one page of them |
| `ProposalsScreen.ProposalParamsSearch` | src/react/pages/proposals/index.js:41-44 | the person-name filter is sent, trimmed, exactly when the search text holds more than blanks; no other key is sent |
| `ProposalsScreen.RefetchAddsContractModel` | src/react/pages/proposals/index.js:54-69 | the refetch after a creation is the focus request with the one key `contractModel` added |
| `ProposalsScreen.ProposalParamsIgnorePadding` | src/react/pages/proposals/index.js:41-44 | blanks around the search text change neither request |
| `ProposalsScreen.RefetchIsFocusPlusModel` | src/react/pages/proposals/index.js:54-69 | the refetch map equals the focus map with `contractModel` set |
| `ProposalsScreen.WithSearchAfterKey` | src/react/pages/proposals/index.js:41-44 | the people-name filter and any other key may be set in either order |
| `ProposalsScreen.WithSearchIgnorePadding` | src/react/pages/proposals/index.js:41-44 | the filter depends only on the trimmed search text |
| `ProposalsScreen.LowerAsciiMatches` | src/react/pages/proposals/index.js:72-72 | for a lower-case target, lower-casing a text gives the target exactly when the two are equal ignoring case |
| `ProposalsScreen.StatusColor` | src/react/pages/proposals/index.js:71-82 | green, red and orange for `ativo`, `inativo` and `pendente` in any case; grey exactly for any other status or none |
| `ProposalsScreen.StatusColorIgnoresCase` | src/react/pages/proposals/index.js:71-82 | statuses equal up to case get the same colour |
| `ProposalsScreen.RenderProposals` | src/react/pages/proposals/index.js:237-265 | the spinner while loading, then the error, then the empty state, then the list; the list always shows the size selector, and shows the pager exactly when there are more items than one page holds |
| `ProposalsScreen.PagerDrawnIffRendered` | src/react/pages/proposals/index.js:237-327 | the paging handlers' guard holds exactly when the body draws the list with its pager: not loading, no error, a non-empty page and more items than one page holds |
| `CreateContractModal.UniqueModels` | src/react/components/CreateContractModal.js:76-90 | no two kept models share an `@id` |
| `CreateContractModal.UniqueModelsKeys` | src/react/components/CreateContractModal.js:76-90 | an `@id` is kept exactly when some record carries a model with it |
| `CreateContractModal.UniqueModelsFirst` | src/react/components/CreateContractModal.js:80-88 | each kept model is the model of the first record carrying its `@id` |
| `CreateContractModal.UniqueModelsOrder` | src/react/components/CreateContractModal.js:80-88 | kept models come in the order in which their `@id`s first appear |
| `CreateContractModal.MissingIdsKeepFirst` | src/react/components/CreateContractModal.js:80-88 | two models without an `@id` share the missing key, so only the first is kept |
| `CreateContractModal.LoadedModels` | src/react/components/CreateContractModal.js:66-104 | a failed query, or a `null` record, gives the three fallback models; a non-array response gives none; otherwise the unique models |
| `CreateContractModal.FallbackModelsDistinct` | src/react/components/CreateContractModal.js:95-100 | the fallback list has three models, each with an `@id`, no two sharing one |
| `CreateContractModal.ExtractUniqueModels` | src/react/components/CreateContractModal.js:76-90 | the loop with its `Set` throws exactly on a `null` record, and otherwise returns the unique models |
| `CreateContractModal.SubmitEnabled` | src/react/components/CreateContractModal.js:437-442 | enabled exactly when no save is running and the three required fields are filled |
| `CreateContractModal.ContractPayloadOf` | src/react/components/CreateContractModal.js:114-124 | the payload carries the trimmed document key, or none when it is blank; the start date, or now; the end date or none; now for creation and alteration; no people |
| `CreateContractModal.PayloadIgnoresKeyPadding` | src/react/components/CreateContractModal.js:118-118 | blanks around the document key never reach the payload |
| `CreateContractModal.SubmitEvents` | src/react/components/CreateContractModal.js:106-138 | a missing required field gives only the required-fields alert; otherwise the save comes first, followed by the success alert and ending with `onClose`, or by the failure alert alone |
| `CreateContractModal.SubmitEventsCases` | src/react/components/CreateContractModal.js:106-138 | a submit's events are the events that follow its payload's save, with the guard's verdict |
| `CreateContractModal.GuardDecidesSave` | src/react/components/CreateContractModal.js:107-126 | a submit saves exactly once, as its first event, when the guard passes, and never otherwise |
| `CreateContractModal.CallbacksOnlyOnSuccess` | src/react/components/CreateContractModal.js:126-134 | `onClose` runs exactly after a successful save, and `onSuccess` exactly then when the parent passed one |
| `CreateContractModal.SavedThen` | src/react/components/CreateContractModal.js:107-134 | the events that follow a given save call: none but the required-fields alert when the guard fails; otherwise the save, then the success alert, `onSuccess` when present and `onClose`, or the failure alert alone |
| `CreateContractModal.SavedThenSavesOnce` | src/react/components/CreateContractModal.js:107-126 | for any save call, the event list holds it exactly once, first, when the guard passes, and never otherwise |
| `CreateContractModal.SavedThenCallbacks` | src/react/components/CreateContractModal.js:126-134 | for any save call, `onClose` appears exactly after a successful save, and `onSuccess` exactly then when the parent passed one |
| `CreateContractModal.CreateContractForm.LoadContractModels` | src/react/components/CreateContractModal.js:66-104 | one query is made, the list becomes the loaded models, and the form fields are kept |
| `CreateContractModal.CreateContractForm.ResetForm` | src/react/components/CreateContractModal.js:140-147 | the six form fields are emptied and nothing else changes |
| `CreateContractModal.CreateContractForm.HandleClose` | src/react/components/CreateContractModal.js:149-152 | the form is emptied, then `onClose` runs |
| `CreateContractModal.CreateContractForm.HandleSubmit` | src/react/components/CreateContractModal.js:106-138 | logs exactly the submit events; the form is emptied only after a successful save; past the guard, loading ends false |
| `CreateContractModal.CreateContractForm.AfterSave` | src/react/components/CreateContractModal.js:126-137 | logs the events after a save past the guard; a successful save empties the form, a failed one leaves all six fields as they were; loading flags and the model list are untouched |
| `CreateContractModal.CreateContractForm.SubmitFilled` | src/react/components/CreateContractModal.js:112-137 | past the guard: logs the events after the save of the form's payload, empties the form only on success, and ends with loading false |
| `CreateProposalsModal.FormatDate` | src/react/pages/proposals/CreateProposalsModal.js:74-77 | null exactly when a part is missing; otherwise the year followed by the padded month and day |
| `CreateProposalsModal.FormatDateAgreesWithOpportunities` | src/react/pages/proposals/CreateProposalsModal.js:74-77 | the modal assembles dates as the opportunities screen does, with null in place of '' |
| `CreateProposalsModal.DayValue` | src/react/pages/proposals/CreateProposalsModal.js:217-222 | the day picker stores the unpadded digits of the day |
| `CreateProposalsModal.MonthValue` | src/react/pages/proposals/CreateProposalsModal.js:247-252 | the month picker stores the unpadded digits of the month number |
| `CreateProposalsModal.PickedStartDateIsIso` | src/react/pages/proposals/CreateProposalsModal.js:74-77 | unpadded picker values with a typed year still give `year-mm-dd` of the picked day and month |
| `CreateProposalsModal.ProposalPayloadOf` | src/react/pages/proposals/CreateProposalsModal.js:86-90 | the payload carries the model, `people/` plus the company id as beneficiary, and as start date the `formatDate` of the three parts, so a date is sent exactly when all three are present |
| `CreateProposalsModal.SubmitEnabled` | src/react/pages/proposals/CreateProposalsModal.js:323-323 | enabled exactly when no save is running and a model is chosen |
| `CreateProposalsModal.SubmitEvents` | src/react/pages/proposals/CreateProposalsModal.js:79-100 | without a model, only the required-fields alert; otherwise the save comes first and the last event is `onClose` on success or the failure alert on failure |
| `CreateProposalsModal.SavedThen` | src/react/pages/proposals/CreateProposalsModal.js:80-97 | the events that follow a given save: the alert alone when the guard fails; otherwise the save first, ending with `onClose` on success or with the failure alert |
| `CreateProposalsModal.SubmitEventsCases` | src/react/pages/proposals/CreateProposalsModal.js:79-100 | a submit's events are the events that follow its payload's save, with the guard's verdict |
| `CreateProposalsModal.GuardDecidesSave` | src/react/pages/proposals/CreateProposalsModal.js:80-91 | a submit saves exactly once, as its first event, when a model is chosen, and never otherwise |
| `CreateProposalsModal.SuccessIsSilent` | src/react/pages/proposals/CreateProposalsModal.js:91-96 | a successful save shows no alert; `onClose` runs exactly after one, and `onSuccess` exactly then when passed |
| `CreateProposalsModal.CreateProposalsForm.LoadContractModels` | src/react/pages/proposals/CreateProposalsModal.js:63-72 | the response replaces the list; a failure is swallowed and leaves the list as it was |
| `CreateProposalsModal.CreateProposalsForm.PickDay` | src/react/pages/proposals/CreateProposalsModal.js:221-222 | the start day becomes the unpadded day; every other field, the loading flags, the model list and the event log stay |
| `CreateProposalsModal.CreateProposalsForm.PickMonth` | src/react/pages/proposals/CreateProposalsModal.js:251-252 | the start month becomes the unpadded month number; every other field, the loading flags, the model list and the event log stay |
| `CreateProposalsModal.CreateProposalsForm.TypeYear` | src/react/pages/proposals/CreateProposalsModal.js:303-306 | the start year becomes the typed text; every other field, the loading flags, the model list and the event log stay |
| `CreateProposalsModal.PickThenSubmitScenario` | src/react/pages/proposals/CreateProposalsModal.js:79-84 | picking a full start date logs nothing; a submit with no model chosen then logs only the required-fields alert and keeps the date |
| `CreateProposalsModal.PickChosenModelSubmitScenario` | src/react/pages/proposals/CreateProposalsModal.js:79-93 | with a model chosen and 5 March 2024 picked, a successful submit logs the save of `2024-03-05` for `people/` plus the company id, then `onSuccess` and `onClose` |
| `CreateProposalsModal.CreateProposalsForm.HandleSubmit` | src/react/pages/proposals/CreateProposalsModal.js:79-100 | logs exactly the submit events and keeps the form; past the guard, loading ends false |
| `CreateProposalsModal.CreateProposalsForm.SubmitFilled` | src/react/pages/proposals/CreateProposalsModal.js:84-99 | past the guard: logs the save of the form's payload and what follows it, keeps the form, and ends with loading false |
| `CreateProposalsModal.CreateProposalsForm.ResetForm` | src/react/pages/proposals/CreateProposalsModal.js:102-108 | the five form fields are emptied and nothing else changes |
| `CreateProposalsModal.CreateProposalsForm.HandleClose` | src/react/pages/proposals/CreateProposalsModal.js:110-113 | the form is emptied, then `onClose` runs |
| `CrmConversation.AuthorOf` | src/react/pages/crm/conversation.js:49-50 | the name, else the alias, else the default author; never empty |
| `CrmConversation.ToMessage` | src/react/pages/crm/conversation.js:44-51 | id and time are copied; the text is `RemoveAll` of the body on the quote, so it holds no quote and every other character as often as in the body, in order; the message is the user's exactly when the interaction is private |
| `CrmConversation.KeptItems` | src/react/pages/crm/conversation.js:43-43 | keeps exactly the interactions with a body other than "null" |
| `CrmConversation.KeptItemsConcat` | src/react/pages/crm/conversation.js:43-43 | the filter distributes over concatenation, so kept interactions keep their order and their number of occurrences |
| `CrmConversation.ToMessages` | src/react/pages/crm/conversation.js:44-51 | one message per interaction, position by position |
| `CrmConversation.SortByTimestamp` | src/react/pages/crm/conversation.js:52-52 | the result is sorted by time and is a permutation of its input |
| `CrmConversation.Transform` | src/react/pages/crm/conversation.js:41-52 | the thread is sorted by time and is a permutation of the messages of the kept interactions |
| `CrmConversation.TransformMessages` | src/react/pages/crm/conversation.js:40-56 | a message shows exactly when it comes from a kept interaction, once per kept interaction, quote-free and with an author |
| `CrmConversation.ShowDate` | src/react/pages/crm/conversation.js:96-99 | a separator is drawn above the first message and above each message whose day label differs from the previous one; the two lemmas below state what follows |
| `CrmConversation.SeparatorAbove` | src/react/pages/crm/conversation.js:96-99 | every message has a separator at or above it, with no change of day in between |
| `CrmConversation.OneSeparatorPerDay` | src/react/pages/crm/conversation.js:96-99 | in a sorted thread, two separators never carry the same day |
| `CrmConversation.SendEnabled` | src/react/pages/crm/conversation.js:193-198 | the send button is enabled exactly when the input holds more than blanks |
| `CrmConversation.ConversationScreen.constructor` | src/react/pages/crm/conversation.js:36-38 | the screen asks for the interactions of its task, with an empty input and thread |
| `CrmConversation.ConversationScreen.OnItems` | src/react/pages/crm/conversation.js:40-56 | a non-empty list replaces the thread with its transform; otherwise the thread stays |
| `CrmConversation.ConversationScreen.SetMessage` | src/react/pages/crm/conversation.js:182-182 | the input holds the typed text |
| `CrmConversation.ConversationScreen.SendMessage` | src/react/pages/crm/conversation.js:80-94 | a blank input does nothing; otherwise one private comment with the trimmed text is saved and the input is cleared |
| `ModelStore.IdFormat` | src/store/model/index.js:30-32 | `#` followed by the id |
| `ModelStore.IdRoute` | src/store/model/index.js:24-29 | the link goes to `modelDetails` with the id as the only parameter |
| `ModelStore.IdLabelParsesBack` | src/store/model/index.js:30-32 | the number after `#` reads back as the id |
| `ModelStore.CategoryFormat` | src/store/model/index.js:49-51 | the category's name, or nothing without a category |
| `ModelStore.CategoryFormatList` | src/store/model/index.js:60-67 | null without a category; otherwise its id as value and its name as label |
| `ModelStore.CategoryNumber` | src/store/model/index.js:57-59 | `parseInt(value.value || value)`: the number read from the picked value or the bare value; NaN for an option with a falsy value and for an object without `value` |
| `ModelStore.CategorySaveFormat` | src/store/model/index.js:57-59 | a `/categories/` IRI for every present value, and a TypeError exactly for a missing one |
| `ModelStore.CategoryRoundTrip` | src/store/model/index.js:57-67 | picking a category with a positive id saves that category's IRI |
| `ModelStore.CategoryBareId` | src/store/model/index.js:57-59 | a bare numeric id saves the same IRI |
| `ModelStore.CategoryRecordSavesNaN` | src/store/model/index.js:57-59 | the row's own category object, handed back without a `value`, saves `/categories/NaN` |
| `ModelStore.SignerFormat` | src/store/model/index.js:76-78 | `name - alias`, or ` - ` without a signer |
| `ModelStore.SignerFormatList` | src/store/model/index.js:79-85 | the value is the last path segment of the signer's IRI and the label is the cell's text; nothing without a signer |
| `ModelStore.SignerSaveFormat` | src/store/model/index.js:86-88 | null exactly for a falsy value; otherwise a `/people/` IRI |
| `ModelStore.SignerRoundTrip` | src/store/model/index.js:79-88 | picking a person whose IRI is `/people/` plus a key saves that IRI again |
| `ModelStore.SignerRecordSavesObjectText` | src/store/model/index.js:86-88 | the row's own signer object, handed back without a `value`, saves `/people/[object Object]` |
| `ModelStore.FileSaveFormat` | src/store/model/index.js:103-106 | an object's non-empty `@id`, otherwise the value's text |
| `ModelStore.FileSaveFormatStable` | src/store/model/index.js:103-106 | saving a saved file reference, as text or as an object with that `@id`, gives it back |
| `JsText.Trim` | src/react/pages/crm/conversation.js:81-81 | the trimmed text is empty exactly for a blank text, and otherwise neither starts nor ends with a blank |
| `JsText.TrimIsCore` | src/react/pages/crm/index.js:77-78 | the trimmed text is an infix of the text with only blanks before and after it |
| `JsText.CoreIsTrim` | src/react/pages/crm/index.js:77-78 | any infix with only blanks around it that neither starts nor ends with a blank is the trimmed text |
| `JsText.TrimIdempotent` | src/react/pages/crm/index.js:77-78 | trimming twice is trimming once |
| `JsText.DigitsOnly` | src/react/pages/crm/index.js:616-616 | the result is all digits, and a text of digits is kept as it is |
| `JsText.DigitsOnlyCounts` | src/react/pages/crm/index.js:616-616 | every digit of the text is kept as often as it occurs, and no other character is |
| `JsText.DigitsOnlyConcat` | src/react/pages/crm/index.js:616-616 | the filter distributes over concatenation, so the kept digits stay in their order |
| `JsText.RemoveAll` | src/react/pages/crm/conversation.js:46-46 | the result holds no quote and every other character as often as the text does; a text without quotes is kept as it is |
| `JsText.RemoveAllConcat` | src/react/pages/crm/conversation.js:46-46 | removal distributes over concatenation, so the characters that stay keep their order |
| `JsText.LastSegment` | src/store/model/index.js:82-82 | the part after the last `/`: a suffix of the text with no `/`, preceded by `/` when shorter than the text |
| `JsText.PadStart2` | src/react/pages/crm/index.js:185-190 | `padStart(2, '0')`: length two or the text's own length when longer, the text at its end and zeros before it |
| `JsText.ParseInt` | src/store/model/index.js:58-58 | `parseInt` without a radix; NaN for the empty text; `ParseIntOfNatToString` states what it reads back |
| `JsText.LowerAscii` | src/react/pages/proposals/index.js:72-72 | `toLowerCase` on ASCII letters: same length, each character lower-cased |
| `JsText.ParseIntOfNatToString` | src/store/model/index.js:58-58 | `parseInt` reads back the decimal text of a natural number |
| `JsText.NumberText` | src/store/model/index.js:58-58 | a number's concatenated text is never empty, and is `NaN` exactly for a failed parse |

## Left out

- Rendering (JSX, styles, icons) and navigation. The link targets of the
  column formatters are modelled; the screens' `navigate` calls are not.
- Asynchrony. Each awaited store call is one step whose outcome is a
  parameter, so interleavings, races and loading flags observed between
  the steps are not modelled. The list requests of the two list screens
  are logged as `PageQuery` values in the order the effects make them,
  and responses to them are not modelled, so which response the screen
  shows last is not stated.
- The clock and the locale:
  - the `Hoje`/`Ontem`/`toLocaleDateString` day labels of the conversation
    (src/react/pages/crm/conversation.js:58-78) are the `dayLabel`
    parameter;
  - `parseDateComponents`, `formatDateForInput` and today's components
    in the opportunities screen are parameters of type `DateParts`;
  - `new Date().toISOString()` in the contract payload is the
    `CurrentTime` marker;
  - `toLocaleTimeString` is left out.
- `JSON.parse` and `JSON.stringify` are not modelled as text. What
  `JSON.parse` makes of a text is a parameter, and the stored announce is
  the `Announce` value, not its JSON text. A legacy `announce` of digits
  only is read by `JSON.parse` as a number: it shows no phone, and an
  unchanged save erases it (`EditWithoutChangeErasesNonArrayAnnounce`).
- The opportunities focus effect's requests for statuses, categories and
  people, `onRefresh`'s refreshing flag, `toggleStatus` (it only logs) and
  the detail modal components. Only the opportunities request that these
  handlers share is modelled.
- `loadInitialData`, which only fills the lists the pickers of both modals
  display. The pickers and setters of the modal forms are not modelled as
  methods: the form fields, among them the contract modal's
  `selectedBeneficiary`, which is required and sent as `beneficiary`, are
  fields of the form that are assigned directly.
- JavaScript `undefined` and `null` inside strings are modelled as ''.
  Keys inherited from the object prototype are not modelled.
- `CreateContractModal.ExtractUniqueModels`: a contract whose
  `contractModel` is a bare IRI string is not modelled. In the source,
  `'@id'` of a string is `undefined`, so the first bare IRI is kept (the
  string itself, not a model object) and every later one is dropped, even
  a different IRI. The model's nearest case is a model without an `@id`,
  which collapses the same way (`MissingIdsKeepFirst`).
- Element and response shapes the source does not check:
  - the elements of a stored announce array are strings in `JsonArray`.
    A `null` or number element (`[11999]`) is returned as is by
    `parsePhoneNumbers` (src/react/pages/crm/index.js:230), and
    `phone.trim()` then throws on save;
  - `CreateProposalsModal.CreateProposalsForm.LoadContractModels` takes
    the response as a list of models. The source passes whatever the
    store returns to `setContractModels`, where the contract modal checks
    `Array.isArray` first.
- JavaScript numbers. Ids and `createdAt` are unbounded integers:
  - `ModelStore.CategoryRoundTrip` and `ModelStore.IdLabelParsesBack` are
    stated for every positive id, but `String(n)` turns to exponent form
    from 1e21 (`parseInt("1e+21")` is 1), and ids above 2^53 lose
    precision, so the source keeps those facts only below these bounds;
  - the conversation sorts `new Date(item.createdAt)`, which is NaN for an
    invalid date and makes the comparator inconsistent. The model's
    `createdAt` is always a valid time.
- The handlers of the opportunities screen assume a draft exists. Without
  one, the model leaves the state unchanged:
  - `{...null, field}` in a picker handler creates a partial draft
    holding only that field;
  - `prev.phones` in the phone handlers throws inside a state updater.
- `CrmOpportunities.OpportunitiesScreen.HandleSaveEdit`: the save event
  records the draft and the provider id rather than the payload object.
  `SentPayload` gives the payload that the store receives.
- `CrmOpportunities.OpportunitiesScreen.HandleSaveNewOpportunity`: the
  same holds for the company id.
- `CrmOpportunities.OpportunitiesScreen.PickAlterDay` and `PickAlterMonth`
  model the `onSelect` callbacks of the alter-date pickers, which cannot
  be reached: the screen passes `'name'` where the picker's visibility goes
  and no setter, and nothing opens them. The alter date only ever comes
  from the opened opportunity.
- In the store's `saveFormat` functions, a `value` property that is
  neither a number nor a string is not modelled.
- `CrmConversation.SortByTimestamp`: it states sortedness and permutation
  but not stability. The source's `Array.prototype.sort` is stable, which
  the model does not promise.
- `JsText.ParseIntOfNatToString`: covers natural numbers only. The
  negative round trip of `parseInt` is not stated, because every id read
  back is positive.
- `ModelStore.FileSaveFormat`: a missing (`null` or `undefined`) file
  value throws a TypeError in the source. It is not part of `FileValue`.
- `ModelStore.SignerFormatList`: a signer without an `@id` makes `split`
  throw in the source. The model's `Signer` always carries one.
- In the proposal modal the beneficiary sent is `people/` without a
  leading slash, and the beneficiary chosen in the form is ignored. Both
  are modelled as written.
- The commissions, detail and home pages, the route tables and
  `src/components/Model/Configs.js` are not part of this model.
