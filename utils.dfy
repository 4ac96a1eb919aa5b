/** The field introspection of `drf_auto_endpoint/utils.py`: the validation
    bounds of a serializer field, the metadata record of one field, and the
    keyword defaults of an action button. */
module Utils {
  import opened Values
  import opened Text
  import opened Framework

  // ---------------------------------------------------------------------------
  // get_validation_attrs

  /** The attribute table, in the order of the source's dict literal:
      serializer attribute name and the validation key it feeds. */
  const ValidationTable: seq<(string, string)> :=
    [("min_length", "min"), ("max_length", "max"), ("min_value", "min"), ("max_value", "max")]

  /** `getattr(field, attr, None)`. */
  function ValidationAttr(f: FieldInstance, attr: string): Value {
    if attr == "min_length" then f.minLength
    else if attr == "max_length" then f.maxLength
    else if attr == "min_value" then f.minValue
    else if attr == "max_value" then f.maxValue
    else Null
  }

  /** The bound fed by a `_value` and a `_length` attribute: the `_value` one
      when it is not None, else the `_length` one when it is not None. */
  function Bound(valueAttr: Value, lengthAttr: Value): Option<Value> {
    if valueAttr != Null then Some(valueAttr)
    else if lengthAttr != Null then Some(lengthAttr)
    else None
  }

  function MinBound(f: FieldInstance): Option<Value> { Bound(f.minValue, f.minLength) }

  function MaxBound(f: FieldInstance): Option<Value> { Bound(f.maxValue, f.maxLength) }

  /** The value the last of the first `n` table rows feeding `key` with a
      non-None attribute gives it. */
  ghost function LastAssigned(f: FieldInstance, n: nat, key: string): Option<Value>
    requires n <= |ValidationTable|
  {
    if n == 0 then None
    else
      var (attr, k) := ValidationTable[n - 1];
      if k == key && ValidationAttr(f, attr) != Null then Some(ValidationAttr(f, attr))
      else LastAssigned(f, n - 1, key)
  }

  /** `rv` holds exactly the bounds of `f`: keys among `min` and `max`, each
      present iff one of its attributes is not None, the `_value` one winning. */
  ghost predicate IsBounds(f: FieldInstance, rv: map<string, Value>) {
    && rv.Keys <= {"min", "max"}
    && OptEntry(rv, "min", MinBound(f))
    && OptEntry(rv, "max", MaxBound(f))
  }

  method GetValidationAttrs(f: FieldInstance) returns (rv: map<string, Value>)
    ensures IsBounds(f, rv)
  {
    rv := map[];
    for i := 0 to |ValidationTable|
      invariant rv.Keys <= {"min", "max"}
      invariant OptEntry(rv, "min", LastAssigned(f, i, "min"))
      invariant OptEntry(rv, "max", LastAssigned(f, i, "max"))
    {
      var (attr, key) := ValidationTable[i];
      if ValidationAttr(f, attr) != Null {
        rv := rv[key := ValidationAttr(f, attr)];
      }
    }
    assert LastAssigned(f, 2, "min") == Bound(Null, f.minLength);
    assert LastAssigned(f, 3, "min") == MinBound(f);
    assert LastAssigned(f, 2, "max") == Bound(Null, f.maxLength);
    assert LastAssigned(f, 3, "max") == Bound(Null, f.maxLength);
  }

  // ---------------------------------------------------------------------------
  // The choice lists

  /** One entry of a `choices` list. */
  function Choice(caption: Value, value: Value): Value {
    Dict(map["label" := caption, "value" := value])
  }

  /** `getattr(record, keyAttr)` succeeds on every record: the key attribute
      is a name (`getattr` refuses None) that every record has. It is not
      needed when there are no records. */
  predicate HasKeyAttr(records: seq<Record>, keyAttr: Option<string>) {
    forall rec :: rec in records ==> keyAttr.Some? && keyAttr.value in rec.attrs
  }

  /** The choices of a relation listed inline: one entry per record, in order,
      labelled by the record's string form, valued by its key attribute. */
  function RecordChoices(records: seq<Record>, keyAttr: Option<string>): (r: seq<Value>)
    requires HasKeyAttr(records, keyAttr)
    ensures |r| == |records|
    ensures forall i :: 0 <= i < |records| ==>
              keyAttr.Some? && keyAttr.value in records[i].attrs &&
              r[i] == Choice(Str(records[i].display), records[i].attrs[keyAttr.value])
  {
    if records == [] then []
    else
      assert records[0] in records;
      [Choice(Str(records[0].display), records[0].attrs[keyAttr.value])] + RecordChoices(records[1..], keyAttr)
  }

  /** The choices of an enumerated field: one entry per `(key, display)` item,
      in order, labelled by the display value and valued by the key. */
  function ItemChoices(items: seq<(Value, Value)>): (r: seq<Value>)
    ensures |r| == |items|
    ensures forall i :: 0 <= i < |items| ==> r[i] == Choice(items[i].1, items[i].0)
  {
    if items == [] then [] else [Choice(items[0].1, items[0].0)] + ItemChoices(items[1..])
  }

  // ---------------------------------------------------------------------------
  // get_field_dict: what it reads

  /** The `field` argument: a field name, or a dict naming the field and
      overriding keys of the computed record. */
  datatype FieldDescriptor = Name(name: string) | Override(entries: map<string, Value>)

  /** A value `serializer_instance.fields[...]` can look up without a
      `TypeError`: anything but a list, a dict or an unhashable object. */
  predicate Hashable(v: Value) {
    !v.List? && !v.Dict? && (v.Obj? ==> v.hashable)
  }

  /** A dict descriptor has a `name` key that can be looked up. */
  predicate WellFormed(field: FieldDescriptor) {
    field.Override? ==> "name" in field.entries && Hashable(field.entries["name"])
  }

  function DescriptorName(field: FieldDescriptor): Value
    requires WellFormed(field)
  {
    match field
    case Name(n) => Str(n)
    case Override(entries) => entries["name"]
  }

  /** The keys a dict descriptor overrides; none for a plain name. */
  function Overrides(field: FieldDescriptor): map<string, Value> {
    if field.Override? then field.entries else map[]
  }

  /** A `[key, value]` pair, as one item of the iterable `dict.update` takes. */
  predicate IsPair(v: Value) {
    v.List? && |v.items| == 2 && v.items[0].Str?
  }

  function PairKey(v: Value): string
    requires IsPair(v)
  {
    v.items[0].s
  }

  function PairValue(v: Value): Value
    requires IsPair(v)
  {
    v.items[1]
  }

  /** What updating an empty dict with the pairs `items` in order gives;
      None when an item is not a pair. */
  function PairEntries(items: seq<Value>): (r: Option<map<string, Value>>)
    ensures r.Some? <==> forall i :: 0 <= i < |items| ==> IsPair(items[i])
  {
    if items == [] then Some(map[])
    else
      var init := PairEntries(items[..|items| - 1]);
      var last := items[|items| - 1];
      if init.Some? && IsPair(last) then Some(init.value[PairKey(last) := PairValue(last)]) else None
  }

  /** The keys of the pairs `items`. */
  function PairKeys(items: seq<Value>): set<string>
    requires forall i :: 0 <= i < |items| ==> IsPair(items[i])
  {
    set i | 0 <= i < |items| :: PairKey(items[i])
  }

  /** The update by pairs holds exactly the keys of the pairs. */
  lemma {:induction false} PairEntriesKeys(items: seq<Value>)
    requires forall i :: 0 <= i < |items| ==> IsPair(items[i])
    ensures PairEntries(items).Some? && PairEntries(items).value.Keys == PairKeys(items)
  {
    if items != [] {
      var n := |items|;
      var init := items[..n - 1];
      assert forall i :: 0 <= i < n - 1 ==> init[i] == items[i];
      PairEntriesKeys(init);
      assert PairKeys(items) == PairKeys(init) + {PairKey(items[n - 1])} by {
        forall x | x in PairKeys(items) ensures x in PairKeys(init) + {PairKey(items[n - 1])} {
          var i :| 0 <= i < n && PairKey(items[i]) == x;
          if i < n - 1 {
            assert PairKey(init[i]) == x;
          }
        }
      }
    }
  }

  /** In the update by pairs, a key holds the value of the last pair that has it. */
  lemma {:induction false} PairEntriesLastWins(items: seq<Value>, i: nat)
    requires forall i :: 0 <= i < |items| ==> IsPair(items[i])
    requires i < |items|
    requires forall j :: i < j < |items| ==> PairKey(items[j]) != PairKey(items[i])
    ensures PairEntries(items).Some?
    ensures PairKey(items[i]) in PairEntries(items).value
    ensures PairEntries(items).value[PairKey(items[i])] == PairValue(items[i])
  {
    var n := |items|;
    if i < n - 1 {
      var init := items[..n - 1];
      assert init[i] == items[i];
      assert forall j :: i < j < n - 1 ==> init[j] == items[j];
      PairEntriesLastWins(init, i);
    }
  }

  /** What `dict.update(v)` adds to an empty dict: a dict's entries, or the
      entries of a list of pairs; None for a value `update` refuses. */
  function UpdateEntries(v: Value): Option<map<string, Value>> {
    if v.Dict? then Some(v.entries)
    else if v.List? then PairEntries(v.items)
    else None
  }

  /** A dict descriptor's `extra`, if it has one, is something `dict.update` takes. */
  predicate ExtraMergeable(field: FieldDescriptor) {
    field.Override? && "extra" in field.entries ==> UpdateEntries(field.entries["extra"]).Some?
  }

  /** `field.get('extra', {})` as the entries it adds; nothing for a name. */
  function DescriptorExtra(field: FieldDescriptor): map<string, Value>
    requires ExtraMergeable(field)
  {
    if field.Override? && "extra" in field.entries then UpdateEntries(field.entries["extra"]).value else map[]
  }

  /** `serializer_instance.fields[name]`, None for a `KeyError`. */
  function LookupField(serializer: Serializer, name: Value): Option<FieldInstance> {
    if name.Str? && name.s in serializer.fields then Some(serializer.fields[name.s]) else None
  }

  /** `model._meta.get_field(field.source)` when a model is given, None when
      there is no model or `FieldDoesNotExist`. */
  function LookupModelField(model: Option<Model>, f: FieldInstance): Option<ModelField> {
    if model.Some? && f.source in model.value.fields then Some(model.value.fields[f.source]) else None
  }

  predicate IsRelation(kind: FieldKind) {
    kind.PrimaryKeyRelated? || kind.ManyRelated? || kind.SlugRelated?
  }

  /** `model_field.__class__.__name__`, which for a missing model field is the
      class name of None. */
  function ClassNameOf(mf: Option<ModelField>): string {
    if mf.Some? then mf.value.className else "NoneType"
  }

  /** The related model of a relation field: the model field's when there is a
      model field, else the model of the field's own queryset. */
  function RelatedModelOf(f: FieldInstance, mf: Option<ModelField>): Option<Model> {
    if mf.Some? then mf.value.relatedModel
    else if f.queryset.Some? then Some(f.queryset.value.model)
    else None
  }

  /** The records a relation lists inline: the field's own queryset if it has
      one, else all records of the related model. */
  function ChoiceRecords(f: FieldInstance, related: Model): seq<Record>
    requires related.objects.Some?
  {
    if f.queryset.Some? then f.queryset.value.records else related.objects.value
  }

  /** The attribute that values an inline relation choice: the model field's
      first `to_fields` entry (which may be None) when there is one, else `pk`. */
  function KeyAttr(mf: Option<ModelField>): Option<string> {
    if mf.Some? && mf.value.toFields.Some? && |mf.value.toFields.value| > 0
    then mf.value.toFields.value[0]
    else Some("pk")
  }

  /** Listing a relation's records does not raise: the related model has an
      `objects` manager (read even when the field's own queryset replaces it),
      and every listed record has the key attribute. */
  predicate CanList(f: FieldInstance, mf: Option<ModelField>) {
    && RelatedModelOf(f, mf).Some?
    && RelatedModelOf(f, mf).value.objects.Some?
    && HasKeyAttr(ChoiceRecords(f, RelatedModelOf(f, mf).value), KeyAttr(mf))
  }

  /** A relation with a resolved related model, described as a link to its endpoint. */
  predicate LinksEndpoint(f: FieldInstance, mf: Option<ModelField>, foreignKeyAsList: bool) {
    IsRelation(f.kind) && RelatedModelOf(f, mf).Some? && !foreignKeyAsList
  }

  /** A relation with a resolved related model, described by listing its records. */
  predicate ListsRecords(f: FieldInstance, mf: Option<ModelField>, foreignKeyAsList: bool) {
    IsRelation(f.kind) && RelatedModelOf(f, mf).Some? && foreignKeyAsList
  }

  /** A field that is not a relation and exposes a `choices` mapping. */
  predicate ListsItems(f: FieldInstance) {
    !IsRelation(f.kind) && f.kind.WithChoices?
  }

  /** What describing a known field `f` named `name` needs so as not to
      raise: a widget for every class name it looks up, the model name when
      describing `__str__`, and records it can list. */
  predicate Describable(name: string, f: FieldInstance, serializer: Serializer, mf: Option<ModelField>,
                        foreignKeyAsList: bool, widgets: map<string, string>)
  {
    && f.className in widgets
    && (name == "__str__" ==> serializer.metaModelName.Some?)
    && (LinksEndpoint(f, mf, foreignKeyAsList) ==> ClassNameOf(mf) in widgets)
    && (ListsRecords(f, mf, foreignKeyAsList) || ListsItems(f) ==> "choice" in widgets)
    && (ListsRecords(f, mf, foreignKeyAsList) ==> CanList(f, mf))
  }

  /** What `get_field_dict` needs of its inputs so as not to raise: a dict
      descriptor with a `name` that can be looked up; and, when the name is one
      of the serializer's, an `extra` that `dict.update` takes and a
      describable field. */
  predicate CanDescribe(field: FieldDescriptor, serializer: Serializer, model: Option<Model>,
                        foreignKeyAsList: bool, widgets: map<string, string>)
  {
    && WellFormed(field)
    && match LookupField(serializer, DescriptorName(field))
       case None => true
       case Some(f) =>
         && ExtraMergeable(field)
         && Describable(DescriptorName(field).s, f, serializer, LookupModelField(model, f), foreignKeyAsList, widgets)
  }

  // ---------------------------------------------------------------------------
  // get_field_dict: what the record holds, key by key

  /** The keys the record computes for a field that exists. */
  const ComputedKeys: set<string> :=
    {"key", "type", "read_only", "ui", "validation", "extra", "translated",
     "default", "related_endpoint", "choices"}

  /** Read-only: the `__str__` pseudo-field always, any other field when it is
      read-only and is not a many-related field. */
  predicate ReadOnlyFlag(name: string, f: FieldInstance) {
    name == "__str__" || (f.readOnly && !f.kind.ManyRelated?)
  }

  /** The widget: the model field's class for an endpoint link, the choice
      widget for a listed relation or an enumerated field, else the field's class. */
  function TypeOf(f: FieldInstance, mf: Option<ModelField>, foreignKeyAsList: bool,
                  widgets: map<string, string>): string
    requires f.className in widgets
    requires LinksEndpoint(f, mf, foreignKeyAsList) ==> ClassNameOf(mf) in widgets
    requires ListsRecords(f, mf, foreignKeyAsList) || ListsItems(f) ==> "choice" in widgets
  {
    if LinksEndpoint(f, mf, foreignKeyAsList) then widgets[ClassNameOf(mf)]
    else if ListsRecords(f, mf, foreignKeyAsList) || ListsItems(f) then widgets["choice"]
    else widgets[f.className]
  }

  /** The label: a model field's verbose name (its name when it has none)
      wins; otherwise the serializer model's name for `__str__`, else the
      title-cased field name with underscores as spaces. */
  function LabelOf(name: string, serializer: Serializer, mf: Option<ModelField>): Value
    requires name == "__str__" ==> serializer.metaModelName.Some?
  {
    if mf.Some? then
      (if mf.value.verboseName.Some? then mf.value.verboseName.value else Str(mf.value.name))
    else if name == "__str__" then Str(serializer.metaModelName.value)
    else Str(FieldLabel(name))
  }

  /** `fields_annotation[name][key]`, if both lookups succeed. */
  function AnnotationOf(annotations: map<string, map<string, Value>>, name: string, key: string): Option<Value> {
    if name in annotations && key in annotations[name] then Some(annotations[name][key]) else None
  }

  /** The help text: the annotation's when it has one, else the field's when it is not None. */
  function HelpOf(annotations: map<string, map<string, Value>>, name: string, f: FieldInstance): Option<Value> {
    var a := AnnotationOf(annotations, name, "help");
    if a.Some? then a else if f.helpText != Null then Some(f.helpText) else None
  }

  /** `m.get(k)`, as an option. */
  function Lookup(m: map<string, Value>, k: string): (o: Option<Value>)
    ensures OptEntry(m, k, o)
  {
    if k in m then Some(m[k]) else None
  }

  /** `d` is the default the record reports, rule by rule: a truthy plain
      serializer default is kept; a falsy or callable one gives none; for the
      `empty` marker the model field's default is used, the result of calling
      it when it is callable, and none when the model field is missing, has no
      default or has `NOT_PROVIDED`. */
  predicate DefaultRule(f: FieldInstance, mf: Option<ModelField>, d: Option<Value>) {
    && (f.default.Given? && Truthy(f.default.v) ==> d == Some(f.default.v))
    && (f.default.Given? && !Truthy(f.default.v) ==> d.None?)
    && (f.default.Callable? ==> d.None?)
    && (f.default.Empty? && (mf.None? || mf.value.default.None?) ==> d.None?)
    && (f.default.Empty? && mf.Some? && mf.value.default == Some(NotProvided) ==> d.None?)
    && (f.default.Empty? && mf.Some? && mf.value.default.Some? && mf.value.default.value.Factory? ==>
          d == Some(mf.value.default.value.result))
    && (f.default.Empty? && mf.Some? && mf.value.default.Some? && mf.value.default.value.Constant? ==>
          d == Some(mf.value.default.value.v))
  }

  /** Required: never for a relation whose model field is a many-to-many
      reverse relation, otherwise the field's own flag. */
  predicate RequiredOf(f: FieldInstance, mf: Option<ModelField>) {
    if IsRelation(f.kind) && mf.Some? && mf.value.className == "ManyToManyRel" then false
    else f.required
  }

  /** The endpoint of a related model: its app, and its lower-cased model name
      in the singular and the plural. */
  function Endpoint(related: Model, pluralize: string -> string): Value {
    var singular := Lower(related.modelName);
    Dict(map["app" := Str(related.appLabel), "singular" := Str(singular), "plural" := Str(pluralize(singular))])
  }

  function EndpointOf(f: FieldInstance, mf: Option<ModelField>, foreignKeyAsList: bool,
                      pluralize: string -> string): Option<Value>
  {
    if LinksEndpoint(f, mf, foreignKeyAsList) then Some(Endpoint(RelatedModelOf(f, mf).value, pluralize))
    else None
  }

  /** The choices: the listed records of a relation, or the items of an enumerated field. */
  function ChoicesOf(f: FieldInstance, mf: Option<ModelField>, foreignKeyAsList: bool): Option<Value>
    requires ListsRecords(f, mf, foreignKeyAsList) ==> CanList(f, mf)
  {
    if ListsRecords(f, mf, foreignKeyAsList) then
      Some(List(RecordChoices(ChoiceRecords(f, RelatedModelOf(f, mf).value), KeyAttr(mf))))
    else if ListsItems(f) then Some(List(ItemChoices(f.kind.items)))
    else None
  }

  /** The record's `default` follows the default rule unless the descriptor overrides it. */
  predicate DefaultMatches(rv: map<string, Value>, overrides: map<string, Value>, f: FieldInstance,
                           mf: Option<ModelField>)
  {
    "default" !in overrides ==> DefaultRule(f, mf, Lookup(rv, "default"))
  }

  /** The `ui` dict: exactly a label, and a help text and a placeholder when there are some. */
  ghost predicate UiMatches(ui: map<string, Value>, name: string, f: FieldInstance, serializer: Serializer,
                            annotations: map<string, map<string, Value>>, mf: Option<ModelField>)
    requires name == "__str__" ==> serializer.metaModelName.Some?
  {
    && ui.Keys <= {"label", "help", "placeholder"}
    && OptEntry(ui, "label", Some(LabelOf(name, serializer, mf)))
    && OptEntry(ui, "help", HelpOf(annotations, name, f))
    && OptEntry(ui, "placeholder", AnnotationOf(annotations, name, "placeholder"))
  }

  /** The `validation` dict: the required flag and the field's bounds. */
  ghost predicate ValidationMatches(validation: map<string, Value>, f: FieldInstance, mf: Option<ModelField>) {
    && validation.Keys <= {"required", "min", "max"}
    && OptEntry(validation, "required", Some(Bool(RequiredOf(f, mf))))
    && OptEntry(validation, "min", MinBound(f))
    && OptEntry(validation, "max", MaxBound(f))
  }

  /** Key `k` of the record is the computed `o` unless the descriptor overrides it. */
  predicate Computed(rv: map<string, Value>, overrides: map<string, Value>, k: string, o: Option<Value>) {
    k !in overrides ==> OptEntry(rv, k, o)
  }

  /** Every key of `rv` that `overrides` does not mention holds what the
      introspection computes for field `f` named `name`. */
  ghost predicate AgreesWithComputed(rv: map<string, Value>, overrides: map<string, Value>, name: string,
                                     f: FieldInstance, serializer: Serializer, translatedFields: set<string>,
                                     annotations: map<string, map<string, Value>>, mf: Option<ModelField>,
                                     foreignKeyAsList: bool, widgets: map<string, string>,
                                     pluralize: string -> string)
    requires Describable(name, f, serializer, mf, foreignKeyAsList, widgets)
  {
    && Computed(rv, overrides, "key", Some(Str(name)))
    && Computed(rv, overrides, "type", Some(Str(TypeOf(f, mf, foreignKeyAsList, widgets))))
    && Computed(rv, overrides, "read_only", Some(Bool(ReadOnlyFlag(name, f))))
    && Computed(rv, overrides, "translated", Some(Bool(name in translatedFields)))
    && DefaultMatches(rv, overrides, f, mf)
    && Computed(rv, overrides, "related_endpoint", EndpointOf(f, mf, foreignKeyAsList, pluralize))
    && Computed(rv, overrides, "choices", ChoicesOf(f, mf, foreignKeyAsList))
    && ("ui" !in overrides ==>
          "ui" in rv && rv["ui"].Dict? && UiMatches(rv["ui"].entries, name, f, serializer, annotations, mf))
    && ("validation" !in overrides ==>
          "validation" in rv && rv["validation"].Dict? && ValidationMatches(rv["validation"].entries, f, mf))
  }

  /** `rv` is the record `get_field_dict` returns. An unknown field gives just
      its key; a known one `KnownFieldDict`. */
  ghost predicate IsFieldDict(rv: map<string, Value>, field: FieldDescriptor, serializer: Serializer,
                              translatedFields: set<string>, annotations: map<string, map<string, Value>>,
                              model: Option<Model>, foreignKeyAsList: bool, widgets: map<string, string>,
                              pluralize: string -> string)
    requires CanDescribe(field, serializer, model, foreignKeyAsList, widgets)
  {
    match LookupField(serializer, DescriptorName(field))
    case None => rv == map["key" := DescriptorName(field)]
    case Some(f) =>
      KnownFieldDict(rv, field, f, serializer, translatedFields, annotations, model, foreignKeyAsList, widgets,
                     pluralize)
  }

  /** The record of the serializer's field `f`: every key a dict descriptor
      gives other than `extra` is the descriptor's value, `extra` is the
      computed (empty) extra updated with the descriptor's, and every other key
      is the computed one. */
  ghost predicate KnownFieldDict(rv: map<string, Value>, field: FieldDescriptor, f: FieldInstance,
                                 serializer: Serializer, translatedFields: set<string>,
                                 annotations: map<string, map<string, Value>>, model: Option<Model>,
                                 foreignKeyAsList: bool, widgets: map<string, string>, pluralize: string -> string)
    requires WellFormed(field) && ExtraMergeable(field) && DescriptorName(field).Str?
    requires Describable(DescriptorName(field).s, f, serializer, LookupModelField(model, f), foreignKeyAsList, widgets)
  {
    var ov := Overrides(field);
    && (forall k :: k in rv ==> k in ov || k in ComputedKeys)
    && (forall k :: k in ov && k != "extra" ==> k in rv && rv[k] == ov[k])
    && "extra" in rv && rv["extra"] == Dict(map[] + DescriptorExtra(field))
    && AgreesWithComputed(rv, ov, DescriptorName(field).s, f, serializer, translatedFields, annotations,
                          LookupModelField(model, f), foreignKeyAsList, widgets, pluralize)
  }

  /** The override merge of a dict descriptor keeps every computed key it does
      not mention: the merged record `rv` is the specified one. */
  lemma MergeKeepsComputed(base: map<string, Value>, field: FieldDescriptor, serializer: Serializer,
                           translatedFields: set<string>, annotations: map<string, map<string, Value>>,
                           model: Option<Model>, foreignKeyAsList: bool, widgets: map<string, string>,
                           pluralize: string -> string, f: FieldInstance, rv: map<string, Value>)
    requires WellFormed(field) && ExtraMergeable(field) && DescriptorName(field).Str?
    requires Describable(DescriptorName(field).s, f, serializer, LookupModelField(model, f), foreignKeyAsList, widgets)
    requires base.Keys <= ComputedKeys && "extra" in base && base["extra"] == Dict(map[])
    requires AgreesWithComputed(base, map[], DescriptorName(field).s, f, serializer, translatedFields,
                                annotations, LookupModelField(model, f), foreignKeyAsList, widgets, pluralize)
    requires rv == if field.Override? then (base + field.entries)["extra" := Dict(map[] + DescriptorExtra(field))]
                   else base
    ensures KnownFieldDict(rv, field, f, serializer, translatedFields, annotations, model, foreignKeyAsList,
                           widgets, pluralize)
  {
    MergeShape(base, field, rv);
    AgreementSurvivesMerge(base, rv, Overrides(field), DescriptorName(field).s, f, serializer, translatedFields,
                           annotations, LookupModelField(model, f), foreignKeyAsList, widgets, pluralize);
  }

  /** The keys of the merge: the computed ones and the descriptor's, the
      descriptor's values winning, `extra` the updated one, every other key
      as it was. */
  lemma MergeShape(base: map<string, Value>, field: FieldDescriptor, rv: map<string, Value>)
    requires ExtraMergeable(field)
    requires base.Keys <= ComputedKeys && "extra" in base && base["extra"] == Dict(map[])
    requires rv == if field.Override? then (base + field.entries)["extra" := Dict(map[] + DescriptorExtra(field))]
                   else base
    ensures forall k :: k in rv ==> k in Overrides(field) || k in ComputedKeys
    ensures forall k :: k in Overrides(field) && k != "extra" ==> k in rv && rv[k] == Overrides(field)[k]
    ensures "extra" in rv && (field.Override? ==> rv["extra"] == Dict(map[] + DescriptorExtra(field)))
    ensures forall k :: k !in Overrides(field) && k != "extra" ==>
              (k in rv <==> k in base) && (k in base ==> rv[k] == base[k])
  {
  }

  /** Agreement with the computed values carries over to every key that the
      merge leaves as it was. */
  lemma AgreementSurvivesMerge(base: map<string, Value>, rv: map<string, Value>, overrides: map<string, Value>,
                               name: string, f: FieldInstance, serializer: Serializer, translatedFields: set<string>,
                               annotations: map<string, map<string, Value>>, mf: Option<ModelField>,
                               foreignKeyAsList: bool, widgets: map<string, string>, pluralize: string -> string)
    requires Describable(name, f, serializer, mf, foreignKeyAsList, widgets)
    requires AgreesWithComputed(base, map[], name, f, serializer, translatedFields, annotations, mf,
                                foreignKeyAsList, widgets, pluralize)
    requires forall k :: k !in overrides && k != "extra" ==>
               (k in rv <==> k in base) && (k in base ==> rv[k] == base[k])
    ensures AgreesWithComputed(rv, overrides, name, f, serializer, translatedFields, annotations, mf,
                               foreignKeyAsList, widgets, pluralize)
  {
    if "default" !in overrides {
      assert Lookup(rv, "default") == Lookup(base, "default");
    }
  }

  // ---------------------------------------------------------------------------
  // get_field_dict

  /** The `ui` dict (`utils.py` lines 71-75, 83-89, 99-103): the derived
      label, the annotation's placeholder and help, the field's help text when
      the annotation gives none, and the model field's verbose name as label. */
  method DescribeUi(name: string, f: FieldInstance, serializer: Serializer,
                    annotations: map<string, map<string, Value>>, modelField: Option<ModelField>)
    returns (ui: map<string, Value>)
    requires name == "__str__" ==> serializer.metaModelName.Some?
    ensures UiMatches(ui, name, f, serializer, annotations, modelField)
  {
    ui := map["label" := if name != "__str__" then Str(FieldLabel(name)) else Str(serializer.metaModelName.value)];
    if name in annotations {
      if "placeholder" in annotations[name] {
        ui := ui["placeholder" := annotations[name]["placeholder"]];
      }
      if "help" in annotations[name] {
        ui := ui["help" := annotations[name]["help"]];
      }
    }
    if f.helpText != Null && "help" !in ui {
      ui := ui["help" := f.helpText];
    }
    if modelField.Some? {
      match modelField.value.verboseName
      case Some(v) => ui := ui["label" := v];
      case None => ui := ui["label" := Str(modelField.value.name)];
    }
  }

  /** The default resolution (lines 91, 105-112). */
  method ResolveDefault(f: FieldInstance, modelField: Option<ModelField>) returns (default: Option<Value>)
    ensures DefaultRule(f, modelField, default)
  {
    default := None;
    if f.default.Given? && Truthy(f.default.v) {
      default := Some(f.default.v);
    } else if f.default.Empty? && modelField.Some? && modelField.value.default.Some? {
      var modelDefault := modelField.value.default.value;
      if !modelDefault.NotProvided? {
        default := Some(if modelDefault.Factory? then modelDefault.result else modelDefault.v);
      }
    }
  }

  /** The relation and enumeration branches (lines 114-159): the widget that
      replaces the field's own (None when it is kept), whether `required` is
      forced off, and the endpoint or choices entry. */
  method DescribeRelation(name: string, f: FieldInstance, serializer: Serializer, modelField: Option<ModelField>,
                          foreignKeyAsList: bool, widgets: map<string, string>, pluralize: string -> string)
    returns (widget: Option<string>, notRequired: bool, endpoint: Option<Value>, choices: Option<Value>)
    requires Describable(name, f, serializer, modelField, foreignKeyAsList, widgets)
    ensures (if widget.Some? then widget.value else widgets[f.className]) ==
            TypeOf(f, modelField, foreignKeyAsList, widgets)
    ensures notRequired <==> !RequiredOf(f, modelField) && f.required
    ensures endpoint == EndpointOf(f, modelField, foreignKeyAsList, pluralize)
    ensures choices == ChoicesOf(f, modelField, foreignKeyAsList)
  {
    widget, notRequired, endpoint, choices := None, false, None, None;
    if IsRelation(f.kind) {
      var relatedModel: Option<Model> := None;
      if modelField.Some? {
        relatedModel := modelField.value.relatedModel;
      } else if f.queryset.Some? {
        relatedModel := Some(f.queryset.value.model);
      }

      if modelField.Some? && modelField.value.className == "ManyToManyRel" {
        notRequired := f.required;
      }

      if relatedModel.Some? {
        var related := relatedModel.value;
        if !foreignKeyAsList {
          widget := Some(widgets[ClassNameOf(modelField)]);
          endpoint := Some(Endpoint(related, pluralize));
        } else {
          widget := Some(widgets["choice"]);
          var records := related.objects.value;
          if f.queryset.Some? {
            records := f.queryset.value.records;
          }
          var keyAttr := Some("pk");
          if modelField.Some? && modelField.value.toFields.Some? && |modelField.value.toFields.value| > 0 {
            keyAttr := modelField.value.toFields.value[0];
          }
          choices := Some(List(RecordChoices(records, keyAttr)));
        }
      }
    } else if f.kind.WithChoices? {
      widget := Some(widgets["choice"]);
      choices := Some(List(ItemChoices(f.kind.items)));
    }
  }

  /** `rv['validation'].update(get_validation_attrs(field))` (line 161): the
      bounds are added and `required` is kept as it was. */
  method MergeBounds(validation: map<string, Value>, f: FieldInstance) returns (merged: map<string, Value>)
    requires validation.Keys == {"required"}
    ensures merged.Keys <= {"required", "min", "max"}
    ensures "required" in merged && merged["required"] == validation["required"]
    ensures OptEntry(merged, "min", MinBound(f)) && OptEntry(merged, "max", MaxBound(f))
  {
    var bounds := GetValidationAttrs(f);
    merged := validation + bounds;
  }

  /** The keys every known field's record has. */
  const FixedKeys: set<string> := {"key", "type", "read_only", "ui", "validation", "extra", "translated"}

  /** The dict literal that starts the record (lines 67-81). */
  function FixedRecord(name: string, widget: string, readOnly: bool, ui: map<string, Value>,
                          validation: map<string, Value>, translated: bool): (rv: map<string, Value>)
    ensures rv.Keys == FixedKeys
    ensures rv["key"] == Str(name) && rv["type"] == Str(widget)
    ensures rv["read_only"] == Bool(readOnly) && rv["translated"] == Bool(translated)
    ensures rv["ui"] == Dict(ui) && rv["validation"] == Dict(validation)
    ensures rv["extra"] == Dict(map[])
  {
    map["key" := Str(name), "type" := Str(widget), "read_only" := Bool(readOnly), "ui" := Dict(ui),
        "validation" := Dict(validation), "extra" := Dict(map[]), "translated" := Bool(translated)]
  }

  /** The computed record from its parts: the fixed keys, and the default,
      endpoint and choices when there are some. */
  function ComputedRecord(name: string, widget: string, readOnly: bool, ui: map<string, Value>,
                          validation: map<string, Value>, translated: bool, default: Option<Value>,
                          endpoint: Option<Value>, choices: Option<Value>): (rv: map<string, Value>)
    ensures rv.Keys <= ComputedKeys
    ensures OptEntry(rv, "key", Some(Str(name))) && OptEntry(rv, "type", Some(Str(widget)))
    ensures OptEntry(rv, "read_only", Some(Bool(readOnly))) && OptEntry(rv, "translated", Some(Bool(translated)))
    ensures OptEntry(rv, "ui", Some(Dict(ui))) && OptEntry(rv, "validation", Some(Dict(validation)))
    ensures OptEntry(rv, "extra", Some(Dict(map[])))
    ensures OptEntry(rv, "default", default) && OptEntry(rv, "related_endpoint", endpoint)
    ensures OptEntry(rv, "choices", choices)
  {
    var always := FixedRecord(name, widget, readOnly, ui, validation, translated);
    var withDefault := if default.Some? then always["default" := default.value] else always;
    var withEndpoint := if endpoint.Some? then withDefault["related_endpoint" := endpoint.value] else withDefault;
    if choices.Some? then withEndpoint["choices" := choices.value] else withEndpoint
  }

  /** A record assembled from parts that each meet their specification is the
      computed record of the field. */
  lemma ComputedRecordAgrees(name: string, f: FieldInstance, serializer: Serializer, translatedFields: set<string>,
                             annotations: map<string, map<string, Value>>, mf: Option<ModelField>,
                             foreignKeyAsList: bool, widgets: map<string, string>, pluralize: string -> string,
                             readOnly: bool, widget: string, ui: map<string, Value>, validation: map<string, Value>,
                             default: Option<Value>, endpoint: Option<Value>, choices: Option<Value>,
                             rv: map<string, Value>)
    requires rv == ComputedRecord(name, widget, readOnly, ui, validation, name in translatedFields,
                                  default, endpoint, choices)
    requires Describable(name, f, serializer, mf, foreignKeyAsList, widgets)
    requires readOnly == ReadOnlyFlag(name, f) && widget == TypeOf(f, mf, foreignKeyAsList, widgets)
    requires UiMatches(ui, name, f, serializer, annotations, mf) && ValidationMatches(validation, f, mf)
    requires DefaultRule(f, mf, default) && endpoint == EndpointOf(f, mf, foreignKeyAsList, pluralize)
    requires choices == ChoicesOf(f, mf, foreignKeyAsList)
    ensures rv.Keys <= ComputedKeys && "extra" in rv && rv["extra"] == Dict(map[])
    ensures AgreesWithComputed(rv, map[], name, f, serializer, translatedFields, annotations, mf, foreignKeyAsList,
                               widgets, pluralize)
  {
    assert Lookup(rv, "default") == default;
  }

  /** Describes a field the serializer has (lines 62-161): the record before
      a dict descriptor's overrides are merged in. */
  method DescribeField(name: string, f: FieldInstance, serializer: Serializer, translatedFields: set<string>,
                       annotations: map<string, map<string, Value>>, modelField: Option<ModelField>,
                       foreignKeyAsList: bool, widgets: map<string, string>, pluralize: string -> string)
    returns (rv: map<string, Value>)
    requires Describable(name, f, serializer, modelField, foreignKeyAsList, widgets)
    ensures rv.Keys <= ComputedKeys && "extra" in rv && rv["extra"] == Dict(map[])
    ensures AgreesWithComputed(rv, map[], name, f, serializer, translatedFields, annotations, modelField,
                               foreignKeyAsList, widgets, pluralize)
  {
    var readOnly := name == "__str__";
    if !readOnly && f.readOnly {
      if !f.kind.ManyRelated? {
        readOnly := true;
      }
    }
    var widget := widgets[f.className];
    var ui := DescribeUi(name, f, serializer, annotations, modelField);
    var validation := map["required" := Bool(f.required)];
    var default := ResolveDefault(f, modelField);
    var relationWidget, notRequired, endpoint, choices :=
      DescribeRelation(name, f, serializer, modelField, foreignKeyAsList, widgets, pluralize);
    if relationWidget.Some? {
      widget := relationWidget.value;
    }
    assert widget == TypeOf(f, modelField, foreignKeyAsList, widgets);
    if notRequired {
      validation := validation["required" := Bool(false)];
    }
    assert validation == map["required" := Bool(RequiredOf(f, modelField))];
    validation := MergeBounds(validation, f);
    assert ValidationMatches(validation, f, modelField);
    rv := ComputedRecord(name, widget, readOnly, ui, validation, name in translatedFields, default, endpoint, choices);
    ComputedRecordAgrees(name, f, serializer, translatedFields, annotations, modelField, foreignKeyAsList,
                         widgets, pluralize, readOnly, widget, ui, validation, default, endpoint, choices, rv);
  }

  /** Describes one serializer field for a front end (lines 51-169). The
      serializer class is given as the instance it constructs,
      `settings.WIDGET_MAPPING` as `widgets` and the inflector's `pluralize`
      as a function. */
  method GetFieldDict(field: FieldDescriptor, serializer: Serializer, translatedFields: set<string>,
                      annotations: map<string, map<string, Value>>, model: Option<Model>,
                      foreignKeyAsList: bool, widgets: map<string, string>, pluralize: string -> string)
    returns (rv: map<string, Value>)
    requires CanDescribe(field, serializer, model, foreignKeyAsList, widgets)
    ensures IsFieldDict(rv, field, serializer, translatedFields, annotations, model, foreignKeyAsList,
                        widgets, pluralize)
  {
    var name := DescriptorName(field);
    var found := LookupField(serializer, name);
    if found.None? {
      return map["key" := name];
    }
    var f := found.value;
    var modelField: Option<ModelField> := None;
    if model.Some? && f.source in model.value.fields {
      modelField := Some(model.value.fields[f.source]);
    }
    rv := DescribeField(name.s, f, serializer, translatedFields, annotations, modelField, foreignKeyAsList,
                        widgets, pluralize);
    var computed := rv;
    if field.Override? {
      var extra := map[] + DescriptorExtra(field);
      rv := rv + field.entries;
      rv := rv["extra" := Dict(extra)];
    }
    MergeKeepsComputed(computed, field, serializer, translatedFields, annotations, model, foreignKeyAsList,
                       widgets, pluralize, f, rv);
  }

  // ---------------------------------------------------------------------------
  // action_kwargs

  /** A keyword-argument dict the caller owns and `ActionKwargs` updates. */
  class Kwargs {
    var entries: map<string, Value>

    constructor (entries: map<string, Value>)
      ensures this.entries == entries
    {
      this.entries := entries;
    }
  }

  /** Fills in the icon class, button class and text of an action's keyword
      arguments in place and returns the same dict. */
  method ActionKwargs(iconClass: Value, btnClass: Value, text: Value, funcName: string,
                      kwargs: Kwargs, settings: Settings)
    returns (r: Kwargs)
    modifies kwargs
    ensures r == kwargs
    ensures kwargs.entries.Keys == old(kwargs.entries).Keys + {"icon_class", "btn_class", "text"}
    ensures kwargs.entries["icon_class"] == if iconClass != Null then iconClass else settings.actionIconClass
    ensures kwargs.entries["btn_class"] == if btnClass != Null then btnClass else settings.actionBtnClass
    ensures text != Null ==> kwargs.entries["text"] == text
    ensures text == Null ==> kwargs.entries["text"] == Str(CapFirst(Lower(funcName)))
    ensures forall k :: k in old(kwargs.entries) && k !in {"icon_class", "btn_class", "text"} ==>
              kwargs.entries[k] == old(kwargs.entries)[k]
  {
    kwargs.entries := kwargs.entries + map[
      "icon_class" := if iconClass != Null then iconClass else settings.actionIconClass,
      "btn_class" := if btnClass != Null then btnClass else settings.actionBtnClass];
    if text == Null {
      kwargs.entries := kwargs.entries["text" := Str(CapFirst(Lower(funcName)))];
    } else {
      kwargs.entries := kwargs.entries["text" := text];
    }
    r := kwargs;
  }
}
