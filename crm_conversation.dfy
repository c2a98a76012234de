/** The conversation screen of an opportunity: the interactions loaded
    from the store become a thread of messages (blank and "null" bodies
    dropped, quotes removed, sorted by creation time), a day separator is
    drawn above the first message of each day, and a typed comment is sent
    as a private interaction. */
module CrmConversation {
  import opened Options
  import opened JsText
  import opened StoreApi

  /** The person who registered an interaction; "" where a field is missing. */
  datatype Person = Person(name: string, alias: string)

  /** A task interaction as listed by the store; `body` is "" when missing
      and `createdAt` is the creation time as a number. */
  datatype Interaction = Interaction(id: int, body: string, createdAt: int, visibility: string,
                                     registeredBy: Option<Person>)

  /** A message of the thread. */
  datatype Message = Message(id: int, text: string, timestamp: int, isFromUser: bool, author: string)

  /** The author shown when the interaction names nobody, kept byte for byte
      as the screen writes it. */
  const DefaultAuthor := "UsuÃ¡rio"

  /** The filter of the transform: a body that is present and is not the text "null". */
  predicate Keep(item: Interaction) {
    item.body != [] && item.body != "null"
  }

  /** `registeredBy?.name || registeredBy?.alias || 'UsuÃ¡rio'`. */
  function AuthorOf(who: Option<Person>): (r: string)
    ensures r != []
    ensures who.Some? && who.value.name != [] ==> r == who.value.name
    ensures who.Some? && who.value.name == [] && who.value.alias != [] ==> r == who.value.alias
    ensures (who.None? || (who.value.name == [] && who.value.alias == [])) ==> r == DefaultAuthor
  {
    match who
    case Some(p) => if p.name != [] then p.name else if p.alias != [] then p.alias else DefaultAuthor
    case None => DefaultAuthor
  }

  /** The map of the transform. */
  function ToMessage(item: Interaction): (m: Message)
    ensures m.id == item.id && m.timestamp == item.createdAt
    ensures m.text == RemoveAll(item.body, '"')
    ensures '"' !in m.text && forall c :: c != '"' ==> multiset(m.text)[c] == multiset(item.body)[c]
    ensures m.isFromUser <==> item.visibility == "private"
    ensures m.author != []
  {
    Message(item.id, RemoveAll(item.body, '"'), item.createdAt, item.visibility == "private", AuthorOf(item.registeredBy))
  }

  /** The kept interactions, in their order. */
  function KeptItems(items: seq<Interaction>): (r: seq<Interaction>)
    ensures |r| <= |items|
    ensures forall x :: x in r <==> x in items && Keep(x)
  {
    if items == [] then []
    else (if Keep(items[0]) then [items[0]] else []) + KeptItems(items[1..])
  }

  /** The filter distributes over concatenation: kept interactions stay in
      their order, each as often as it occurs. */
  lemma {:induction false} KeptItemsConcat(a: seq<Interaction>, b: seq<Interaction>)
    ensures KeptItems(a + b) == KeptItems(a) + KeptItems(b)
    decreases |a|
  {
    if a != [] {
      assert (a + b)[1..] == a[1..] + b;
      KeptItemsConcat(a[1..], b);
    } else {
      assert a + b == b;
    }
  }

  /** The messages of the kept interactions, in their order. */
  function ToMessages(items: seq<Interaction>): (r: seq<Message>)
    ensures |r| == |items|
    ensures forall i :: 0 <= i < |items| ==> r[i] == ToMessage(items[i])
  {
    if items == [] then [] else [ToMessage(items[0])] + ToMessages(items[1..])
  }

  /** Non-decreasing by timestamp. */
  predicate Sorted(ms: seq<Message>) {
    forall i, j :: 0 <= i < j < |ms| ==> ms[i].timestamp <= ms[j].timestamp
  }

  /** Inserts `m` after every message of `ms` that is not later than it. */
  function Insert(ms: seq<Message>, m: Message): (r: seq<Message>)
    requires Sorted(ms)
    ensures Sorted(r)
    ensures multiset(r) == multiset(ms) + multiset{m}
    ensures |r| == |ms| + 1
    ensures r[0] == m || (ms != [] && r[0] == ms[0])
  {
    if ms == [] || m.timestamp < ms[0].timestamp then [m] + ms
    else
      assert [ms[0]] + ms[1..] == ms;
      [ms[0]] + Insert(ms[1..], m)
  }

  /** `sort((a, b) => a.timestamp - b.timestamp)`, as an insertion sort. */
  function SortByTimestamp(ms: seq<Message>): (r: seq<Message>)
    ensures Sorted(r)
    ensures multiset(r) == multiset(ms)
  {
    if ms == [] then []
    else
      var init := ms[..|ms| - 1];
      assert init + [ms[|ms| - 1]] == ms;
      Insert(SortByTimestamp(init), ms[|ms| - 1])
  }

  /** The messages the effect makes of a non-empty list of interactions. */
  function Transform(items: seq<Interaction>): (r: seq<Message>)
    ensures Sorted(r)
    ensures multiset(r) == multiset(ToMessages(KeptItems(items)))
  {
    SortByTimestamp(ToMessages(KeptItems(items)))
  }

  /** A message of the thread is the message of some kept interaction, and
      every kept interaction has its message in the thread: blank and "null"
      bodies never show, and each text is free of quotes. */
  lemma TransformMessages(items: seq<Interaction>)
    ensures forall m :: m in Transform(items) <==> exists x :: x in items && Keep(x) && m == ToMessage(x)
    ensures |Transform(items)| == |KeptItems(items)|
    ensures forall m :: m in Transform(items) ==> '"' !in m.text && m.author != []
  {
    var kept := KeptItems(items);
    var ms := ToMessages(kept);
    var r := Transform(items);
    assert forall m :: m in r <==> m in multiset(ms);
    forall m | m in r
      ensures exists x :: x in items && Keep(x) && m == ToMessage(x)
    {
      var i :| 0 <= i < |ms| && ms[i] == m;
      assert kept[i] in kept;
    }
    forall x | x in items && Keep(x)
      ensures ToMessage(x) in r
    {
      assert x in kept;
      var i :| 0 <= i < |kept| && kept[i] == x;
      assert ms[i] == ToMessage(x);
    }
    assert |r| == |multiset(r)| == |multiset(ms)| == |ms|;
  }

  // ---------------------------------------------------------------------------
  // Day separators

  /** A separator is drawn above message `index` when it is the first, or when
      its day label differs from the one of the message before it. */
  predicate ShowDate(ms: seq<Message>, index: nat, dayLabel: int -> string)
    requires index < |ms|
  {
    index == 0 || dayLabel(ms[index].timestamp) != dayLabel(ms[index - 1].timestamp)
  }

  /** The separator that heads message `i`: the nearest one at or above it,
      with the day label of message `i` and no other label in between. */
  function SeparatorAbove(ms: seq<Message>, i: nat, dayLabel: int -> string): (j: nat)
    requires i < |ms|
    ensures j <= i && ShowDate(ms, j, dayLabel)
    ensures forall k :: j <= k <= i ==> dayLabel(ms[k].timestamp) == dayLabel(ms[i].timestamp)
  {
    if ShowDate(ms, i, dayLabel) then i else SeparatorAbove(ms, i - 1, dayLabel)
  }

  /** The clock's day labels: times with the same label form one interval. */
  ghost predicate ContiguousLabels(dayLabel: int -> string) {
    forall t1, t2, t3 :: t1 <= t2 <= t3 && dayLabel(t1) == dayLabel(t3) ==> dayLabel(t2) == dayLabel(t1)
  }

  /** In a sorted thread, no day label is drawn twice. */
  lemma OneSeparatorPerDay(ms: seq<Message>, dayLabel: int -> string, i: nat, j: nat)
    requires Sorted(ms) && ContiguousLabels(dayLabel)
    requires i < j < |ms|
    requires ShowDate(ms, i, dayLabel) && ShowDate(ms, j, dayLabel)
    ensures dayLabel(ms[i].timestamp) != dayLabel(ms[j].timestamp)
  {
    assert ms[i].timestamp <= ms[j - 1].timestamp <= ms[j].timestamp;
  }

  // ---------------------------------------------------------------------------
  // The screen's state

  /** The object given to the interactions store's `save` by `sendMessage`. */
  datatype Comment = Comment(body: string, file: Option<string>, task: string, kind: string, visibility: string)

  /** The send button is enabled when the trimmed input is not empty. */
  function SendEnabled(message: string): (r: bool)
    ensures r <==> !Blank(message)
  {
    Trim(message) != []
  }

  class ConversationScreen {
    var message: string
    var messages: seq<Message>
    var events: seq<ModalEvent<Comment>>

    /** The screen of the opportunity `opportunityId`: it asks for that task's interactions. */
    constructor (opportunityId: int)
      ensures message == "" && messages == []
      ensures events == [ItemsRequested(map["task" := Number(opportunityId)])]
    {
      message, messages := "", [];
      events := [ItemsRequested(map["task" := Number(opportunityId)])];
    }

    /** The effect on `items`: a present, non-empty list replaces the thread
        with its transform; otherwise the thread is left as it was. */
    method OnItems(items: Option<seq<Interaction>>)
      modifies this
      ensures messages == if items.Some? && |items.value| > 0 then Transform(items.value) else old(messages)
      ensures message == old(message) && events == old(events)
    {
      if items.Some? && |items.value| > 0 {
        messages := Transform(items.value);
      }
    }

    /** Typing into the input. */
    method SetMessage(text: string)
      modifies this
      ensures message == text && messages == old(messages) && events == old(events)
    {
      message := text;
    }

    /** `sendMessage` for the opportunity whose IRI is `opportunityIri`: a
        blank input does nothing; otherwise one private comment with the
        trimmed text is saved and the input is cleared. */
    method SendMessage(opportunityIri: string)
      modifies this
      ensures Blank(old(message)) ==> message == old(message) && events == old(events)
      ensures !Blank(old(message)) ==>
                events == old(events) + [SaveCalled(Comment(Trim(old(message)), None, opportunityIri, "comment", "private"))]
                && message == ""
      ensures messages == old(messages)
    {
      var body := Trim(message);
      if body == [] {
        return;
      }
      events := events + [SaveCalled(Comment(body, None, opportunityIri, "comment", "private"))];
      message := "";
    }
  }
}
