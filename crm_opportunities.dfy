/** The opportunities screen of the CRM (a list of `relationship` tasks of the
    current company): its query parameters, the stage tables, the date
    assembly from picker values, the phone-list editing and its
    serialisation into the `announce` field, and the two save handlers. The
    pagination it shares with the proposals screen is in ListPaging. */
module CrmOpportunities {
  import opened Options
  import opened JsText
  import opened StoreApi
  import opened ListPaging

  // ---------------------------------------------------------------------------
  // Query parameters

  /** The parameters of the opportunities `getItems` call, built the same way
      by the focus effect, by pull-to-refresh and after a creation. */
  function OpportunityParams(companyId: int, page: nat, perPage: nat, searchText: string): Params {
    WithClientName(OpportunityBase(companyId, page, perPage), searchText)
  }

  /** `base` with the client-name filter, trimmed, when the search box holds
      more than blanks. */
  function WithClientName(base: Params, searchText: string): Params {
    var search := Trim(searchText);
    if search != [] then base["client.name" := Text(search)] else base
  }

  /** The keys every opportunities request carries. */
  function OpportunityBase(companyId: int, page: nat, perPage: nat): Params {
    map["type" := Text("relationship"), "provider_id" := Number(companyId),
        "provider" := Number(companyId), "page" := Number(page),
        "itemsPerPage" := Number(perPage)]
  }

  /** The fixed part of the request: the relationship type, the company as
      provider under both names, and the page. */
  lemma OpportunityParamsFixed(companyId: int, page: nat, perPage: nat, searchText: string)
    ensures var r := OpportunityParams(companyId, page, perPage, searchText);
            && "type" in r && r["type"] == Text("relationship")
            && "provider_id" in r && r["provider_id"] == Number(companyId)
            && "provider" in r && r["provider"] == Number(companyId)
            && "page" in r && r["page"] == Number(page)
            && "itemsPerPage" in r && r["itemsPerPage"] == Number(perPage)
  {
    var base := OpportunityBase(companyId, page, perPage);
    var r := OpportunityParams(companyId, page, perPage, searchText);
    if Trim(searchText) != [] {
      assert "provider_id"[0] != "client.name"[0];
      assert r == base["client.name" := Text(Trim(searchText))];
    } else {
      assert r == base;
    }
  }

  /** The client-name filter is sent, trimmed, exactly when the search box
      holds more than blanks, and no other key is ever sent. */
  lemma OpportunityParamsSearch(companyId: int, page: nat, perPage: nat, searchText: string)
    ensures var r := OpportunityParams(companyId, page, perPage, searchText);
            && ("client.name" in r <==> Trim(searchText) != [])
            && ("client.name" in r ==> r["client.name"] == Text(Trim(searchText)))
            && r.Keys <= {"type", "provider_id", "provider", "page", "itemsPerPage", "client.name"}
  {
  }

  /** Surrounding blanks in the search box never change the request, and a
      blank search box is the same as an empty one. */
  lemma OpportunityParamsIgnorePadding(companyId: int, page: nat, perPage: nat, searchText: string)
    ensures OpportunityParams(companyId, page, perPage, searchText)
         == OpportunityParams(companyId, page, perPage, Trim(searchText))
    ensures Blank(searchText) ==>
              OpportunityParams(companyId, page, perPage, searchText) == OpportunityParams(companyId, page, perPage, "")
  {
    WithClientNameIgnorePadding(OpportunityBase(companyId, page, perPage), searchText);
  }

  /** The filter reads only the trimmed search text, and adds nothing for a
      blank one. */
  lemma WithClientNameIgnorePadding(base: Params, searchText: string)
    ensures WithClientName(base, searchText) == WithClientName(base, Trim(searchText))
    ensures Blank(searchText) ==> WithClientName(base, searchText) == base == WithClientName(base, "")
  {
    TrimIdempotent(searchText);
    assert Trim("") == [];
  }

  // ---------------------------------------------------------------------------
  // Stage tables

  /** The statuses the colour and label tables know. */
  const StageNames: set<string> := {"open", "closed", "pending", "cancelled"}

  /** A stage's badge colour, grey for a status the table does not know. */
  function StageColor(status: string): (r: string)
    ensures |r| == 7 && r[0] == '#'
    ensures r == "#95a5a6" <==> status !in StageNames
  {
    if status == "open" then "#f39c12"
    else if status == "closed" then "#27ae60"
    else if status == "pending" then "#3498db"
    else if status == "cancelled" then "#e74c3c"
    else "#95a5a6"
  }

  /** A stage's Portuguese label; a status the table does not know is shown as is. */
  function StageLabel(status: string): (r: string)
    ensures r == status <==> status !in StageNames
    ensures status in StageNames ==> r in {"Em Aberto", "Fechado", "Pendente", "Cancelado"}
  {
    if status == "open" then "Em Aberto"
    else if status == "closed" then "Fechado"
    else if status == "pending" then "Pendente"
    else if status == "cancelled" then "Cancelado"
    else status
  }

  // ---------------------------------------------------------------------------
  // Dates from picker components

  /** `year-mm-dd` from the three components, month and day padded to two
      characters; the empty string when any component is missing. */
  function FormatDateFromComponents(day: string, month: string, year: string): (r: string)
    ensures r == [] <==> day == [] || month == [] || year == []
    ensures r != [] ==> |r| == |year| + |PadStart2(month)| + |PadStart2(day)| + 2 && r[..|year|] == year
  {
    if day == [] || month == [] || year == [] then ""
    else year + "-" + PadStart2(month) + "-" + PadStart2(day)
  }

  /** Components of two characters or more are copied as they are. */
  lemma PaddingKeepsLongParts(day: string, month: string, year: string)
    requires |day| >= 2 && |month| >= 2 && year != []
    ensures FormatDateFromComponents(day, month, year) == year + "-" + month + "-" + day
  {
    assert PadStart2(day) == PadStart2(day)[0..];
    assert PadStart2(month) == PadStart2(month)[0..];
  }

  /** An entry of a picker: the stored id and the shown name. */
  datatype PickerItem = PickerItem(id: string, name: string)

  /** `String(n).padStart(2, '0')` as both id and name. */
  function PaddedItem(n: nat): PickerItem {
    var s := PadStart2(NatToString(n));
    PickerItem(s, s)
  }

  /** The day picker: ids and names '01'..'31'. */
  function DayOptions(): (r: seq<PickerItem>)
    ensures |r| == 31
    ensures forall i :: 0 <= i < 31 ==> r[i] == PaddedItem(i + 1) && r[i].name == r[i].id
  {
    seq(31, i requires 0 <= i < 31 => PaddedItem(i + 1))
  }

  const MonthNames: seq<string> := ["Janeiro", "Fevereiro", "Março", "Abril", "Maio", "Junho",
                                    "Julho", "Agosto", "Setembro", "Outubro", "Novembro", "Dezembro"]

  /** The month picker: ids '01'..'12' with the Portuguese month names. */
  function MonthOptions(): (r: seq<PickerItem>)
    ensures |r| == 12
    ensures forall i :: 0 <= i < 12 ==> r[i].id == PaddedItem(i + 1).id && r[i].name == MonthNames[i]
  {
    seq(12, i requires 0 <= i < 12 => PickerItem(PaddedItem(i + 1).id, MonthNames[i]))
  }

  /** The picker ids are the two-digit forms of 1..31 and 1..12, so they are
      pairwise distinct and padding leaves each of them as it is. */
  lemma PickerIdsAreTwoDigits(k: nat)
    requires k < 31
    ensures TwoDigitsOf(DayOptions()[k].id, k + 1) && PadStart2(DayOptions()[k].id) == DayOptions()[k].id
    ensures k < 12 ==> TwoDigitsOf(MonthOptions()[k].id, k + 1) && PadStart2(MonthOptions()[k].id) == MonthOptions()[k].id
  {
    var s := PaddedItem(k + 1).id;
    PaddedNumberIsTwoDigits(k + 1);
    assert PadStart2(s) == PadStart2(s)[0..];
  }

  /** The value stored by entry `k` of a day picker: a two-digit day. */
  function DayId(k: nat): (r: string)
    requires k < 31
    ensures r == DayOptions()[k].id && TwoDigitsOf(r, k + 1)
  {
    PickerIdsAreTwoDigits(k);
    DayOptions()[k].id
  }

  /** The value stored by entry `k` of a month picker: a two-digit month. */
  function MonthId(k: nat): (r: string)
    requires k < 12
    ensures r == MonthOptions()[k].id && TwoDigitsOf(r, k + 1)
  {
    PickerIdsAreTwoDigits(k);
    MonthOptions()[k].id
  }

  /** Any picked day and month, with a year present, assemble to the ISO date
      of those values, padding leaving the picked ids as they are. */
  lemma PickedDateIsIso(year: string, d: nat, m: nat)
    requires year != [] && d < 31 && m < 12
    ensures var dd := DayOptions()[d].id;
            var mm := MonthOptions()[m].id;
            && PadStart2(dd) == dd && PadStart2(mm) == mm
            && FormatDateFromComponents(dd, mm, year) == year + "-" + mm + "-" + dd
            && IsIsoDateOf(FormatDateFromComponents(dd, mm, year), year, m + 1, d + 1)
  {
    var dd := DayOptions()[d].id;
    var mm := MonthOptions()[m].id;
    PickerIdsAreTwoDigits(d);
    PickerIdsAreTwoDigits(m);
    PaddingKeepsLongParts(dd, mm, year);
    IsoDateJoin(year, mm, dd, m + 1, d + 1);
  }

  // ---------------------------------------------------------------------------
  // Phones in the announce field

  /** What `JSON.parse` makes of a text: an array (of phone strings), some
      other JSON value, or a syntax error. */
  datatype JsonVerdict = JsonArray(elems: seq<string>) | JsonNonArray | JsonFailure

  /** The phone list shown for an `announce` text, given what JSON.parse makes
      of that text: nothing for no text, the array for a JSON array, nothing
      for another JSON value, and the trimmed text as the one phone when the
      text is not JSON. */
  function ParsePhoneNumbers(announce: string, verdict: JsonVerdict): (r: seq<string>)
    ensures announce == [] ==> r == []
    ensures announce != [] && verdict.JsonArray? ==> r == verdict.elems
    ensures announce != [] && verdict.JsonNonArray? ==> r == []
    ensures announce != [] && verdict.JsonFailure? ==> r == if Blank(announce) then [] else [Trim(announce)]
  {
    if announce == [] then []
    else match verdict
      case JsonArray(elems) => elems
      case JsonNonArray => []
      case JsonFailure => var t := Trim(announce); if t != [] then [t] else []
  }

  /** The phones kept on save: those whose trimmed text is non-empty, in order. */
  function ValidPhones(phones: seq<string>): (r: seq<string>)
    ensures |r| <= |phones|
    ensures forall p :: p in r <==> p in phones && Trim(p) != []
  {
    if phones == [] then []
    else (if Trim(phones[0]) != [] then [phones[0]] else []) + ValidPhones(phones[1..])
  }

  /** Filtering distributes over concatenation: kept phones stay in their order. */
  lemma {:induction false} ValidPhonesConcat(a: seq<string>, b: seq<string>)
    ensures ValidPhones(a + b) == ValidPhones(a) + ValidPhones(b)
    decreases |a|
  {
    if a != [] {
      assert (a + b)[1..] == a[1..] + b;
      ValidPhonesConcat(a[1..], b);
    } else {
      assert a + b == b;
    }
  }

  /** Filtering twice keeps the same phones as filtering once. */
  lemma {:induction false} ValidPhonesIdempotent(phones: seq<string>)
    ensures ValidPhones(ValidPhones(phones)) == ValidPhones(phones)
    decreases |phones|
  {
    if phones != [] {
      var head := if Trim(phones[0]) != [] then [phones[0]] else [];
      ValidPhonesConcat(head, ValidPhones(phones[1..]));
      ValidPhonesIdempotent(phones[1..]);
    }
  }

  /** The `announce` value a save sends: '' when no phone is left, otherwise
      `JSON.stringify` of the kept phones (kept here as the list itself). */
  datatype Announce = NoPhones | PhoneJson(list: seq<string>)

  function PhoneData(phones: seq<string>): (r: Announce)
    ensures r.NoPhones? <==> forall i :: 0 <= i < |phones| ==> Trim(phones[i]) == []
    ensures r.PhoneJson? ==> r.list != [] && forall p :: p in r.list <==> p in phones && Trim(p) != []
  {
    var valid := ValidPhones(phones);
    if |valid| > 0 then
      assert valid[0] in valid;
      PhoneJson(valid)
    else
      assert forall i :: 0 <= i < |phones| ==> Trim(phones[i]) == [] by {
        forall i | 0 <= i < |phones| ensures Trim(phones[i]) == [] {
          assert phones[i] in phones;
        }
      }
      NoPhones
  }

  /** Saving a phone list and opening the opportunity again shows exactly the
      kept phones: the stored text is empty when none were kept, and otherwise
      a JSON text that JSON.parse reads back as the kept list. */
  lemma ReloadSavedPhones(phones: seq<string>, stored: string, verdict: JsonVerdict)
    requires PhoneData(phones).NoPhones? ==> stored == []
    requires PhoneData(phones).PhoneJson? ==> stored != [] && verdict == JsonArray(PhoneData(phones).list)
    ensures ParsePhoneNumbers(stored, verdict) == ValidPhones(phones)
  {
    if PhoneData(phones).NoPhones? {
      assert |ValidPhones(phones)| == 0;
    }
  }

  /** A legacy `announce` holding one phone as plain text comes back from a
      save as a JSON list of that one trimmed phone. */
  lemma LegacyPhoneSurvivesSave(announce: string)
    requires !Blank(announce)
    ensures PhoneData(ParsePhoneNumbers(announce, JsonFailure)) == PhoneJson([Trim(announce)])
  {
    TrimIdempotent(announce);
    assert ValidPhones([Trim(announce)][1..]) == [];
  }

  /** The list with the entry at `index` left out (`filter((_, i) => i !== index)`);
      an index outside the list removes nothing. */
  function RemoveAt(s: seq<string>, index: int): (r: seq<string>)
    ensures 0 <= index < |s| ==> r == s[..index] + s[index + 1..]
    ensures !(0 <= index < |s|) ==> r == s
  {
    if s == [] then []
    else
      var init := s[..|s| - 1];
      assert init + [s[|s| - 1]] == s;
      RemoveAt(init, index) + (if index == |s| - 1 then [] else [s[|s| - 1]])
  }

  /** The list with the entry at `index` replaced by `value` (`map((p, i) => i === index ? value : p)`). */
  function UpdateAt(s: seq<string>, index: int, value: string): (r: seq<string>)
    ensures |r| == |s|
    ensures 0 <= index < |s| ==> r == s[index := value]
    ensures !(0 <= index < |s|) ==> r == s
  {
    seq(|s|, i requires 0 <= i < |s| => if i == index then value else s[i])
  }

  /** Adding an empty phone input never changes what a save sends. */
  lemma AddedBlankNotSaved(phones: seq<string>)
    ensures PhoneData(phones + [""]) == PhoneData(phones)
  {
    ValidPhonesConcat(phones, [""]);
    assert ValidPhones([""]) == [];
    assert phones + [""] == phones + [""];
  }

  /** Removing an input sends the kept phones of the inputs around it. */
  lemma RemovedPhoneNotSaved(phones: seq<string>, index: nat)
    requires index < |phones|
    ensures ValidPhones(RemoveAt(phones, index)) == ValidPhones(phones[..index]) + ValidPhones(phones[index + 1..])
  {
    ValidPhonesConcat(phones[..index], phones[index + 1..]);
  }

  /** Updating an input sends the new text in place of the old one, when it is not blank. */
  lemma UpdatedPhoneSaved(phones: seq<string>, index: nat, value: string)
    requires index < |phones|
    ensures ValidPhones(UpdateAt(phones, index, value))
         == ValidPhones(phones[..index]) + ValidPhones([value]) + ValidPhones(phones[index + 1..])
  {
    var r := UpdateAt(phones, index, value);
    assert r == phones[..index] + [value] + phones[index + 1..];
    ValidPhonesConcat(phones[..index] + [value], phones[index + 1..]);
    ValidPhonesConcat(phones[..index], [value]);
  }

  // ---------------------------------------------------------------------------
  // The draft under edit and the save handlers

  /** A reference carried by an opportunity (client, status, category, ...):
      its IRI `@id` and its numeric id, "" where absent. */
  datatype Ref = Ref(atId: string, id: string)

  /** `ref?.['@id'] || ref?.id`: the IRI when there is one, else the id; ""
      for "undefined". */
  function ResolveRef(ref: Option<Ref>): (r: string)
    ensures ref.Some? && ref.value.atId != [] ==> r == ref.value.atId
    ensures ref.Some? && ref.value.atId == [] ==> r == ref.value.id
    ensures ref.None? ==> r == []
  {
    match ref
    case None => ""
    case Some(x) => if x.atId != [] then x.atId else x.id
  }

  /** Day, month and year components of a date, "" where missing. */
  datatype DateParts = DateParts(day: string, month: string, year: string)

  /** An opportunity as listed by the store. */
  datatype Opportunity = Opportunity(
    id: int, client: Option<Ref>, taskStatus: Option<Ref>, category: Option<Ref>,
    criticality: Option<Ref>, reason: Option<Ref>, announce: string)

  /** What the two save handlers send to the opportunities store. */
  datatype OpportunityPayload =
    | EditPayload(id: int, client: string, taskStatus: string, category: string,
                  criticality: string, reason: string, dueDate: string, alterDate: string,
                  announce: Announce, providerId: int)
    | NewPayload(client: string, registeredBy: string, taskStatus: string, category: string,
                 criticality: string, reason: string, kind: string, dueDate: string,
                 announce: Announce, provider: string)

  /** The form state of the edit modal or of the new-opportunity modal, a
      value the screen replaces on every change. */
  datatype Draft = Draft(
    id: int, client: Option<Ref>, taskStatus: Option<Ref>, category: Option<Ref>,
    criticality: Option<Ref>, reason: Option<Ref>,
    dueDateDay: string, dueDateMonth: string, dueDateYear: string,
    alterDateDay: string, alterDateMonth: string, alterDateYear: string,
    phones: seq<string>)

  /** The draft of "Nova Oportunidade": no phones, due date today. */
  function NewDraft(today: DateParts): (d: Draft)
    ensures d.phones == [] && d.client.None? && d.taskStatus.None? && d.category.None?
    ensures d.criticality.None? && d.reason.None?
    ensures d.dueDateDay == today.day && d.dueDateMonth == today.month && d.dueDateYear == today.year
    ensures d.alterDateDay == "" && d.alterDateMonth == "" && d.alterDateYear == ""
  {
    Draft(0, None, None, None, None, None, today.day, today.month, today.year, "", "", "", [])
  }

  /** The draft of the edit modal (`handleEditOpportunity`): `due` and `alter`
      are the components read from the opportunity's dates, and a missing due
      component falls back to today. */
  function EditDraft(o: Opportunity, due: DateParts, alter: DateParts, today: DateParts, verdict: JsonVerdict): (d: Draft)
    ensures d.id == o.id && d.client == o.client && d.taskStatus == o.taskStatus
    ensures d.category == o.category && d.criticality == o.criticality && d.reason == o.reason
    ensures d.dueDateDay == (if due.day != [] then due.day else today.day)
    ensures d.dueDateMonth == (if due.month != [] then due.month else today.month)
    ensures d.dueDateYear == (if due.year != [] then due.year else today.year)
    ensures d.alterDateDay == alter.day && d.alterDateMonth == alter.month && d.alterDateYear == alter.year
    ensures d.phones == ParsePhoneNumbers(o.announce, verdict)
  {
    Draft(o.id, o.client, o.taskStatus, o.category, o.criticality, o.reason,
          if due.day != [] then due.day else today.day,
          if due.month != [] then due.month else today.month,
          if due.year != [] then due.year else today.year,
          alter.day, alter.month, alter.year,
          ParsePhoneNumbers(o.announce, verdict))
  }

  /** "Adicionar telefone": one more, empty, input; what a save sends is the same. */
  function WithPhoneAdded(d: Draft): (r: Draft)
    ensures r.phones == d.phones + [""] && r == d.(phones := r.phones)
    ensures PhoneData(r.phones) == PhoneData(d.phones)
  {
    AddedBlankNotSaved(d.phones);
    d.(phones := d.phones + [""])
  }

  /** The trash button of input `index`: a save sends the kept phones of the
      inputs around it. */
  function WithPhoneRemoved(d: Draft, index: int): (r: Draft)
    ensures r == d.(phones := RemoveAt(d.phones, index))
    ensures 0 <= index < |d.phones| ==>
              ValidPhones(r.phones) == ValidPhones(d.phones[..index]) + ValidPhones(d.phones[index + 1..])
  {
    if 0 <= index < |d.phones| then
      RemovedPhoneNotSaved(d.phones, index);
      d.(phones := RemoveAt(d.phones, index))
    else d.(phones := RemoveAt(d.phones, index))
  }

  /** Input `index` now holds `value`: a save sends it in place of the old text
      when it is not blank. */
  function WithPhoneUpdated(d: Draft, index: int, value: string): (r: Draft)
    ensures r == d.(phones := UpdateAt(d.phones, index, value))
    ensures 0 <= index < |d.phones| ==>
              ValidPhones(r.phones)
              == ValidPhones(d.phones[..index]) + ValidPhones([value]) + ValidPhones(d.phones[index + 1..])
  {
    if 0 <= index < |d.phones| then
      UpdatedPhoneSaved(d.phones, index, value);
      d.(phones := UpdateAt(d.phones, index, value))
    else d.(phones := UpdateAt(d.phones, index, value))
  }

  /** The payload of "Salvar" in the edit modal. */
  function EditPayloadOf(d: Draft, providerId: int): (p: OpportunityPayload)
    ensures p.EditPayload? && p.id == d.id && p.providerId == providerId
    ensures p.client == ResolveRef(d.client) && p.taskStatus == ResolveRef(d.taskStatus)
    ensures p.category == ResolveRef(d.category) && p.criticality == ResolveRef(d.criticality)
    ensures p.reason == ResolveRef(d.reason)
    ensures p.dueDate == FormatDateFromComponents(d.dueDateDay, d.dueDateMonth, d.dueDateYear)
    ensures p.alterDate == FormatDateFromComponents(d.alterDateDay, d.alterDateMonth, d.alterDateYear)
    ensures p.announce == PhoneData(d.phones)
  {
    EditPayload(d.id, ResolveRef(d.client), ResolveRef(d.taskStatus), ResolveRef(d.category),
                ResolveRef(d.criticality), ResolveRef(d.reason),
                FormatDateFromComponents(d.dueDateDay, d.dueDateMonth, d.dueDateYear),
                FormatDateFromComponents(d.alterDateDay, d.alterDateMonth, d.alterDateYear),
                PhoneData(d.phones), providerId)
  }

  /** The payload of "Salvar" in the new-opportunity modal: the client is also
      sent as `registeredBy`, and the company as the `/people/` IRI. */
  function NewPayloadOf(d: Draft, companyId: int): (p: OpportunityPayload)
    ensures p.NewPayload? && p.client == ResolveRef(d.client) && p.registeredBy == p.client
    ensures p.taskStatus == ResolveRef(d.taskStatus) && p.category == ResolveRef(d.category)
    ensures p.criticality == ResolveRef(d.criticality) && p.reason == ResolveRef(d.reason)
    ensures p.kind == "relationship"
    ensures p.dueDate == FormatDateFromComponents(d.dueDateDay, d.dueDateMonth, d.dueDateYear)
    ensures p.announce == PhoneData(d.phones)
    ensures p.provider == "/people/" + IntToText(companyId)
  {
    NewPayload(ResolveRef(d.client), ResolveRef(d.client), ResolveRef(d.taskStatus), ResolveRef(d.category),
               ResolveRef(d.criticality), ResolveRef(d.reason), "relationship",
               FormatDateFromComponents(d.dueDateDay, d.dueDateMonth, d.dueDateYear),
               PhoneData(d.phones), "/people/" + IntToText(companyId))
  }

  /** Opening an opportunity and saving it without a change sends back its
      legacy plain-text phone as a one-element JSON list. */
  lemma EditWithoutChangeKeepsLegacyPhone(o: Opportunity, due: DateParts, alter: DateParts, today: DateParts,
                                          providerId: int)
    requires !Blank(o.announce)
    ensures EditPayloadOf(EditDraft(o, due, alter, today, JsonFailure), providerId).announce
         == PhoneJson([Trim(o.announce)])
  {
    LegacyPhoneSurvivesSave(o.announce);
  }

  /** A legacy `announce` that JSON.parse reads as a value other than an
      array (a phone typed as digits only is read as a number) shows no phone,
      so saving the opportunity unchanged sends no phone at all. */
  lemma EditWithoutChangeErasesNonArrayAnnounce(o: Opportunity, due: DateParts, alter: DateParts,
                                                today: DateParts, providerId: int)
    requires o.announce != []
    ensures EditDraft(o, due, alter, today, JsonNonArray).phones == []
    ensures EditPayloadOf(EditDraft(o, due, alter, today, JsonNonArray), providerId).announce == NoPhones
  {
  }

  /** What the screen asks of the stores and shows to the user. A save records
      the draft it was made from; the store receives `EditPayloadOf` or
      `NewPayloadOf` of it. */
  datatype CrmEvent =
    | EditSaveRequested(draft: Draft, providerId: int)
    | NewSaveRequested(draft: Draft, companyId: int)
    | ListRequested(params: Params)
    | Notified(title: string, message: string)

  /** The payload the opportunities store's `save` receives for an event. */
  function SentPayload(e: CrmEvent): (p: Option<OpportunityPayload>)
    ensures p.Some? <==> e.EditSaveRequested? || e.NewSaveRequested?
    ensures e.EditSaveRequested? ==> p == Some(EditPayloadOf(e.draft, e.providerId))
    ensures e.NewSaveRequested? ==> p == Some(NewPayloadOf(e.draft, e.companyId))
  {
    match e
    case EditSaveRequested(d, providerId) => Some(EditPayloadOf(d, providerId))
    case NewSaveRequested(d, companyId) => Some(NewPayloadOf(d, companyId))
    case _ => None
  }

  /** The alerts of the two save handlers. */
  const EditSaved := Notified("Sucesso", "Oportunidade atualizada com sucesso!")
  const EditFailed := Notified("Erro", "Não foi possível salvar as alterações")
  const Created := Notified("Sucesso", "Oportunidade criada com sucesso!")
  const CreateFailed := Notified("Erro", "Não foi possível criar a oportunidade")

  /** The screen's state: the drafts of its two modals, whether each modal is
      open, and the log of store calls and alerts. */
  class OpportunitiesScreen {
    var editing: Option<Draft>
    var creating: Option<Draft>
    var editModalVisible: bool
    var addModalVisible: bool
    var events: seq<CrmEvent>

    constructor ()
      ensures editing.None? && creating.None?
      ensures !editModalVisible && !addModalVisible && events == []
    {
      editing, creating := None, None;
      editModalVisible, addModalVisible := false, false;
      events := [];
    }

    /** The draft of the edit modal when `isEdit`, else the one of the new-opportunity modal. */
    function DraftOf(isEdit: bool): Option<Draft>
      reads this
    {
      if isEdit then editing else creating
    }

    /** Replaces the draft chosen by `isEdit`, leaving the rest of the screen alone. */
    method PutDraft(isEdit: bool, d: Option<Draft>)
      modifies this
      ensures DraftOf(isEdit) == d && DraftOf(!isEdit) == old(DraftOf(!isEdit))
      ensures editModalVisible == old(editModalVisible) && addModalVisible == old(addModalVisible)
      ensures events == old(events)
    {
      if isEdit {
        editing := d;
      } else {
        creating := d;
      }
    }

    /** `handleEditOpportunity`: the edit draft of the opportunity, modal open. */
    method OpenEdit(o: Opportunity, due: DateParts, alter: DateParts, today: DateParts, verdict: JsonVerdict)
      modifies this
      ensures editing == Some(EditDraft(o, due, alter, today, verdict)) && editModalVisible
      ensures creating == old(creating) && addModalVisible == old(addModalVisible) && events == old(events)
    {
      editing := Some(EditDraft(o, due, alter, today, verdict));
      editModalVisible := true;
    }

    /** "Nova Oportunidade": a draft due today with no phones, modal open. */
    method OpenNew(today: DateParts)
      modifies this
      ensures creating == Some(NewDraft(today)) && addModalVisible
      ensures editing == old(editing) && editModalVisible == old(editModalVisible) && events == old(events)
    {
      creating := Some(NewDraft(today));
      addModalVisible := true;
    }

    /** `addPhoneInput(isEdit)`. Without a draft the updater throws and nothing changes. */
    method AddPhoneInput(isEdit: bool)
      modifies this
      ensures DraftOf(isEdit) == if old(DraftOf(isEdit)).Some? then Some(WithPhoneAdded(old(DraftOf(isEdit)).value)) else None
      ensures DraftOf(!isEdit) == old(DraftOf(!isEdit))
      ensures editModalVisible == old(editModalVisible) && addModalVisible == old(addModalVisible)
      ensures events == old(events)
    {
      var d := DraftOf(isEdit);
      if d.Some? {
        PutDraft(isEdit, Some(WithPhoneAdded(d.value)));
      }
    }

    /** `removePhoneInput(index, isEdit)`. */
    method RemovePhoneInput(index: int, isEdit: bool)
      modifies this
      ensures DraftOf(isEdit) == if old(DraftOf(isEdit)).Some? then Some(WithPhoneRemoved(old(DraftOf(isEdit)).value, index)) else None
      ensures DraftOf(!isEdit) == old(DraftOf(!isEdit))
      ensures editModalVisible == old(editModalVisible) && addModalVisible == old(addModalVisible)
      ensures events == old(events)
    {
      var d := DraftOf(isEdit);
      if d.Some? {
        PutDraft(isEdit, Some(WithPhoneRemoved(d.value, index)));
      }
    }

    /** `updatePhoneInput(index, value, isEdit)`. */
    method UpdatePhoneInput(index: int, value: string, isEdit: bool)
      modifies this
      ensures DraftOf(isEdit) == if old(DraftOf(isEdit)).Some? then Some(WithPhoneUpdated(old(DraftOf(isEdit)).value, index, value)) else None
      ensures DraftOf(!isEdit) == old(DraftOf(!isEdit))
      ensures editModalVisible == old(editModalVisible) && addModalVisible == old(addModalVisible)
      ensures events == old(events)
    {
      var d := DraftOf(isEdit);
      if d.Some? {
        PutDraft(isEdit, Some(WithPhoneUpdated(d.value, index, value)));
      }
    }

    /** Typing into phone input `index`: only the digits of the text are stored. */
    method ChangePhoneText(index: int, text: string, isEdit: bool)
      modifies this
      ensures DraftOf(isEdit) == if old(DraftOf(isEdit)).Some? then Some(WithPhoneUpdated(old(DraftOf(isEdit)).value, index, DigitsOnly(text))) else None
      ensures DraftOf(isEdit).Some? && 0 <= index < |DraftOf(isEdit).value.phones| ==> AllDigits(DraftOf(isEdit).value.phones[index])
      ensures DraftOf(!isEdit) == old(DraftOf(!isEdit))
      ensures editModalVisible == old(editModalVisible) && addModalVisible == old(addModalVisible)
      ensures events == old(events)
    {
      UpdatePhoneInput(index, DigitsOnly(text), isEdit);
    }

    /** Entry `k` of the due-date day picker, applied to the edit draft while
        the edit modal is open and to the new draft otherwise. */
    method PickDueDay(k: nat)
      requires k < 31
      modifies this
      ensures var isEdit := old(editModalVisible);
              DraftOf(isEdit) == if old(DraftOf(isEdit)).Some? then Some(old(DraftOf(isEdit)).value.(dueDateDay := DayId(k))) else None
      ensures DraftOf(!old(editModalVisible)) == old(DraftOf(!editModalVisible))
      ensures editModalVisible == old(editModalVisible) && addModalVisible == old(addModalVisible)
      ensures events == old(events)
    {
      var d := DraftOf(editModalVisible);
      if d.Some? {
        PutDraft(editModalVisible, Some(d.value.(dueDateDay := DayId(k))));
      }
    }

    /** Entry `k` of the due-date month picker. */
    method PickDueMonth(k: nat)
      requires k < 12
      modifies this
      ensures var isEdit := old(editModalVisible);
              DraftOf(isEdit) == if old(DraftOf(isEdit)).Some? then Some(old(DraftOf(isEdit)).value.(dueDateMonth := MonthId(k))) else None
      ensures DraftOf(!old(editModalVisible)) == old(DraftOf(!editModalVisible))
      ensures editModalVisible == old(editModalVisible) && addModalVisible == old(addModalVisible)
      ensures events == old(events)
    {
      var d := DraftOf(editModalVisible);
      if d.Some? {
        PutDraft(editModalVisible, Some(d.value.(dueDateMonth := MonthId(k))));
      }
    }

    /** Entry `k` of the alter-date day picker. */
    method PickAlterDay(k: nat)
      requires k < 31
      modifies this
      ensures var isEdit := old(editModalVisible);
              DraftOf(isEdit) == if old(DraftOf(isEdit)).Some? then Some(old(DraftOf(isEdit)).value.(alterDateDay := DayId(k))) else None
      ensures DraftOf(!old(editModalVisible)) == old(DraftOf(!editModalVisible))
      ensures editModalVisible == old(editModalVisible) && addModalVisible == old(addModalVisible)
      ensures events == old(events)
    {
      var d := DraftOf(editModalVisible);
      if d.Some? {
        PutDraft(editModalVisible, Some(d.value.(alterDateDay := DayId(k))));
      }
    }

    /** Entry `k` of the alter-date month picker. */
    method PickAlterMonth(k: nat)
      requires k < 12
      modifies this
      ensures var isEdit := old(editModalVisible);
              DraftOf(isEdit) == if old(DraftOf(isEdit)).Some? then Some(old(DraftOf(isEdit)).value.(alterDateMonth := MonthId(k))) else None
      ensures DraftOf(!old(editModalVisible)) == old(DraftOf(!editModalVisible))
      ensures editModalVisible == old(editModalVisible) && addModalVisible == old(addModalVisible)
      ensures events == old(events)
    {
      var d := DraftOf(editModalVisible);
      if d.Some? {
        PutDraft(editModalVisible, Some(d.value.(alterDateMonth := MonthId(k))));
      }
    }

    /** `handleSaveEdit`; `saveSucceeds` is the outcome of the awaited save.
        Without a draft, reading its fields throws inside the `try` and only
        the error alert is shown. */
    method HandleSaveEdit(providerId: int, saveSucceeds: bool)
      modifies this
      ensures old(editing).None? ==>
                events == old(events) + [EditFailed] && editing.None? && editModalVisible == old(editModalVisible)
      ensures old(editing).Some? && saveSucceeds ==>
                events == old(events) + [EditSaveRequested(old(editing).value, providerId), EditSaved]
                && editing.None? && !editModalVisible
      ensures old(editing).Some? && !saveSucceeds ==>
                events == old(events) + [EditSaveRequested(old(editing).value, providerId), EditFailed]
                && editing == old(editing) && editModalVisible == old(editModalVisible)
      ensures creating == old(creating) && addModalVisible == old(addModalVisible)
    {
      if editing.None? {
        events := events + [EditFailed];
        return;
      }
      var saved := EditSaveRequested(editing.value, providerId);
      if saveSucceeds {
        editModalVisible := false;
        editing := None;
        events := events + [saved, EditSaved];
      } else {
        events := events + [saved, EditFailed];
      }
    }

    /** `handleSaveNewOpportunity`; after a successful save the list is
        requested again with the current page, page size and search text. */
    method HandleSaveNewOpportunity(companyId: int, page: nat, perPage: nat, searchText: string, saveSucceeds: bool)
      modifies this
      ensures old(creating).None? ==>
                events == old(events) + [CreateFailed] && creating.None? && addModalVisible == old(addModalVisible)
      ensures old(creating).Some? && saveSucceeds ==>
                events == old(events) + [NewSaveRequested(old(creating).value, companyId), Created,
                                         ListRequested(OpportunityParams(companyId, page, perPage, searchText))]
                && creating.None? && !addModalVisible
      ensures old(creating).Some? && !saveSucceeds ==>
                events == old(events) + [NewSaveRequested(old(creating).value, companyId), CreateFailed]
                && creating == old(creating) && addModalVisible == old(addModalVisible)
      ensures editing == old(editing) && editModalVisible == old(editModalVisible)
    {
      if creating.None? {
        events := events + [CreateFailed];
        return;
      }
      var saved := NewSaveRequested(creating.value, companyId);
      if saveSucceeds {
        var refetch := ListRequested(OpportunityParams(companyId, page, perPage, searchText));
        addModalVisible := false;
        creating := None;
        events := events + [saved, Created, refetch];
      } else {
        events := events + [saved, CreateFailed];
      }
    }
  }

  /** The screen's paging state feeds the refetch after a create: with "ana"
      searched and Next pressed on 25 opportunities, the new list is asked
      for on page 2 of 10 with that search. */
  method NewOpportunityRefetchScenario(companyId: int, today: DateParts) {
    var list := new ListState();
    list.ChangeSearchText("ana");
    list.PressNext(true, 25);
    var screen := new OpportunitiesScreen();
    screen.OpenNew(today);
    screen.HandleSaveNewOpportunity(companyId, list.currentPage, list.itemsPerPage, list.searchText, true);
    assert screen.events == [NewSaveRequested(NewDraft(today), companyId), Created,
                             ListRequested(OpportunityParams(companyId, 2, 10, "ana"))];
    assert list.requests[|list.requests| - 1] == PageQuery("ana", 2, 10);
  }
}
