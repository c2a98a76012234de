/** The column formatters of the contract-models store: how the `id`,
    `category`, `signer` and `file` columns are shown, offered in pickers and
    turned back into IRIs when a row is saved. */
module ModelStore {
  import opened Options
  import opened JsText

  /** A primitive cell value: a number or a string. */
  datatype Scalar = Num(n: int) | Str(s: string)

  /** JavaScript truthiness of a primitive: non-zero, non-empty. */
  predicate Truthy(v: Scalar) {
    match v
    case Num(n) => n != 0
    case Str(s) => s != []
  }

  /** The string a primitive becomes when concatenated to a string. */
  function ScalarText(v: Scalar): string {
    match v
    case Num(n) => IntToText(n)
    case Str(s) => s
  }

  /** What `String(object)` gives for a plain object. */
  const ObjectText := "[object Object]"

  /** An entry offered by a column's picker: its `label` (here `caption`) and its `value`. */
  datatype ListOption = ListOption(caption: string, value: Scalar)

  /** The value handed to a `saveFormat`: nothing, the option picked from the
      column's list, a bare value already in the row, or an object of the row
      without a `value` property (the model's own category or signer). */
  datatype SaveArg = Missing | Picked(option: ListOption) | Bare(v: Scalar) | Record

  // ---------------------------------------------------------------------------
  // id

  /** parseInt of an object's text is NaN: it starts with '['. */
  lemma ObjectTextIsNaN()
    ensures ParseInt(ObjectText) == None
  {
    var t := ObjectText;
    assert t[0] == '[' && !IsSpace(t[0]) && !IsDigit(t[0]);
    assert TrimStart(t) == t;
    assert DigitPrefixLength(t, false) == 0;
  }

  /** A route of the application: its name and parameters. */
  datatype Route = Route(name: string, params: map<string, Scalar>)

  /** The id cell's text: "#" and the id. */
  function IdFormat(v: Scalar): (r: string)
    ensures |r| >= 1 && r[0] == '#' && r[1..] == ScalarText(v)
  {
    "#" + ScalarText(v)
  }

  /** The id cell's link: the model's detail page. */
  function IdRoute(v: Scalar): (r: Route)
    ensures r.name == "modelDetails" && r.params.Keys == {"id"} && r.params["id"] == v
  {
    Route("modelDetails", map["id" := v])
  }

  /** The number shown after "#" reads back as the id. */
  lemma IdLabelParsesBack(n: nat)
    ensures ParseInt(IdFormat(Num(n))[1..]) == Some(n as int)
  {
    ParseIntOfNatToString(n);
  }

  // ---------------------------------------------------------------------------
  // category

  /** A category as carried by a model. */
  datatype Category = Category(id: int, name: string)

  /** The category cell's text: `value?.name`. */
  function CategoryFormat(c: Option<Category>): (r: Option<string>)
    ensures r.None? <==> c.None?
    ensures r.Some? ==> r.value == c.value.name
  {
    match c
    case None => None
    case Some(x) => Some(x.name)
  }

  /** The category picker's entry: null for no category, else its name and id. */
  function CategoryFormatList(c: Option<Category>): (r: Option<ListOption>)
    ensures r.None? <==> c.None?
    ensures r.Some? ==> r.value.value == Num(c.value.id) && Some(r.value.caption) == CategoryFormat(c)
  {
    match c
    case None => None
    case Some(x) => Some(ListOption(x.name, Num(x.id)))
  }

  /** `parseInt(value.value || value)`: a picked option with a falsy value
      falls back to the option object itself, and an object without `value`
      is read as itself; the text of an object is not a number. */
  function CategoryNumber(arg: SaveArg): (r: Option<int>)
    requires !arg.Missing?
    ensures arg.Picked? && Truthy(arg.option.value) ==> r == ParseInt(ScalarText(arg.option.value))
    ensures arg.Bare? ==> r == ParseInt(ScalarText(arg.v))
    ensures (arg.Picked? && !Truthy(arg.option.value)) || arg.Record? ==> r.None?
  {
    ObjectTextIsNaN();
    match arg
    case Picked(o) => if Truthy(o.value) then ParseInt(ScalarText(o.value)) else ParseInt(ObjectText)
    case Bare(v) => ParseInt(ScalarText(v))
    case Record => ParseInt(ObjectText)
  }

  /** The category's IRI for a save: "/categories/" and the parsed number,
      "NaN" when nothing parses. None stands for the TypeError of reading
      `.value` on a missing value. */
  function CategorySaveFormat(arg: SaveArg): (r: Option<string>)
    ensures r.None? <==> arg.Missing?
    ensures r.Some? ==> |r.value| > 12 && r.value[..12] == "/categories/"
  {
    if arg.Missing? then None
    else
      Some("/categories/" + NumberText(CategoryNumber(arg)))
  }

  /** Picking a category with a positive id saves that category's IRI. */
  lemma CategoryRoundTrip(c: Category)
    requires c.id >= 1
    ensures CategorySaveFormat(Picked(CategoryFormatList(Some(c)).value)) == Some("/categories/" + NatToString(c.id))
  {
    ParseIntOfNatToString(c.id);
  }

  /** A bare numeric id, as a reloaded row holds it, saves the same IRI. */
  lemma CategoryBareId(n: nat)
    ensures CategorySaveFormat(Bare(Num(n))) == Some("/categories/" + NatToString(n))
  {
    ParseIntOfNatToString(n);
  }

  /** A category of the row handed back as it is has no `value`, so its text
      is parsed and the IRI ends in NaN. */
  lemma CategoryRecordSavesNaN()
    ensures CategorySaveFormat(Record) == Some("/categories/" + "NaN")
  {
    ObjectTextIsNaN();
    assert CategoryNumber(Record) == None;
  }

  // ---------------------------------------------------------------------------
  // signer

  /** A person as carried by a model: its IRI `@id`, name and alias. */
  datatype Signer = Signer(atId: string, name: string, alias: string)

  /** The signer cell's text: "name - alias", or " - " without a signer. */
  function SignerFormat(p: Option<Signer>): (r: string)
    ensures p.None? ==> r == " - "
    ensures p.Some? ==> |r| == |p.value.name| + 3 + |p.value.alias| && r[..|p.value.name|] == p.value.name && r[|p.value.name|..] == " - " + p.value.alias
  {
    match p
    case None => " - "
    case Some(x) => x.name + " - " + x.alias
  }

  /** The signer picker's entry: the last path segment of the IRI as value and
      the cell's text as label; nothing without a signer. */
  function SignerFormatList(p: Option<Signer>): (r: Option<ListOption>)
    ensures r.None? <==> p.None?
    ensures r.Some? ==> r.value.caption == SignerFormat(p)
    ensures r.Some? ==> r.value.value.Str? && '/' !in r.value.value.s
    ensures r.Some? ==> exists pre :: p.value.atId == pre + r.value.value.s
  {
    match p
    case None => None
    case Some(x) =>
      var id := LastSegment(x.atId);
      assert x.atId == x.atId[..|x.atId| - |id|] + id;
      Some(ListOption(x.name + " - " + x.alias, Str(id)))
  }

  /** The signer's IRI for a save: null for a falsy value, else "/people/" and
      the option's value, or the value itself when it is bare. */
  function SignerSaveFormat(arg: SaveArg): (r: Option<string>)
    ensures r.None? <==> arg.Missing? || (arg.Bare? && !Truthy(arg.v))
    ensures r.Some? ==> |r.value| >= 8 && r.value[..8] == "/people/"
  {
    match arg
    case Missing => None
    case Picked(o) => Some("/people/" + (if Truthy(o.value) then ScalarText(o.value) else ObjectText))
    case Bare(v) => if Truthy(v) then Some("/people/" + ScalarText(v)) else None
    case Record => Some("/people/" + ObjectText)
  }

  /** A signer of the row handed back as it is has no `value`, so its text
      "[object Object]" follows "/people/". */
  lemma SignerRecordSavesObjectText()
    ensures SignerSaveFormat(Record) == Some("/people/" + ObjectText)
  {
  }

  /** Picking a person whose IRI is "/people/" and a key saves that IRI again. */
  lemma SignerRoundTrip(p: Signer, key: string)
    requires key != [] && '/' !in key && p.atId == "/people/" + key
    ensures SignerSaveFormat(Picked(SignerFormatList(Some(p)).value)) == Some(p.atId)
  {
    LastSegmentAfterSlash("/people", key);
    assert "/people" + "/" + key == p.atId;
  }

  // ---------------------------------------------------------------------------
  // file

  /** A file cell: an object that may carry an `@id`, a string or a number. */
  datatype FileValue = FileObject(atId: string) | FileText(s: string) | FileNumber(n: int)

  /** The file's value for a save: the object's `@id` when it has one,
      otherwise the value's text. */
  function FileSaveFormat(v: FileValue): (r: string)
    ensures v.FileObject? && v.atId != [] ==> r == v.atId
    ensures v.FileObject? && v.atId == [] ==> r == ObjectText
    ensures v.FileText? ==> r == v.s
    ensures v.FileNumber? ==> r == IntToText(v.n)
  {
    match v
    case FileObject(a) => if a != [] then a else ObjectText
    case FileText(s) => s
    case FileNumber(n) => IntToText(n)
  }

  /** A saved file reference saves the same again, whether it comes back as
      its text or as an object with that `@id`. */
  lemma FileSaveFormatStable(v: FileValue)
    ensures FileSaveFormat(FileText(FileSaveFormat(v))) == FileSaveFormat(v)
    ensures FileSaveFormat(v) != [] ==> FileSaveFormat(FileObject(FileSaveFormat(v))) == FileSaveFormat(v)
  {
  }
}
