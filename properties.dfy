/** Properties of the metadata record that relate the whole record to its
    inputs rather than one key to one rule. */
module Properties {
  import opened Values
  import opened Text
  import opened Framework
  import opened Utils

  /** Two maps whose keys lie in `keys` and that agree on every key of it
      are the same map. */
  lemma {:induction false} SameOnKeys(m1: map<string, Value>, m2: map<string, Value>, keys: set<string>)
    requires m1.Keys <= keys && m2.Keys <= keys
    requires forall k :: k in keys ==> (k in m1 <==> k in m2) && (k in m1 ==> m1[k] == m2[k])
    ensures m1 == m2
  {
    assert m1.Keys == m2.Keys;
  }

  /** The `ui` dict is determined by its specification. */
  lemma UiUnique(ui1: map<string, Value>, ui2: map<string, Value>, name: string, f: FieldInstance,
                 serializer: Serializer, annotations: map<string, map<string, Value>>, mf: Option<ModelField>)
    requires name == "__str__" ==> serializer.metaModelName.Some?
    requires UiMatches(ui1, name, f, serializer, annotations, mf)
    requires UiMatches(ui2, name, f, serializer, annotations, mf)
    ensures ui1 == ui2
  {
    SameOnKeys(ui1, ui2, {"label", "help", "placeholder"});
  }

  /** The `validation` dict is determined by its specification. */
  lemma ValidationUnique(v1: map<string, Value>, v2: map<string, Value>, f: FieldInstance, mf: Option<ModelField>)
    requires ValidationMatches(v1, f, mf) && ValidationMatches(v2, f, mf)
    ensures v1 == v2
  {
    SameOnKeys(v1, v2, {"required", "min", "max"});
  }

  /** The default rule covers every case and fixes the default. */
  lemma DefaultRuleUnique(f: FieldInstance, mf: Option<ModelField>, d1: Option<Value>, d2: Option<Value>)
    requires DefaultRule(f, mf, d1) && DefaultRule(f, mf, d2)
    ensures d1 == d2
  {
  }

  /** Two records that agree with the computed values agree on every computed
      key that is not overridden. */
  lemma AgreementUnique(rv1: map<string, Value>, rv2: map<string, Value>, overrides: map<string, Value>,
                        name: string, f: FieldInstance, serializer: Serializer, translatedFields: set<string>,
                        annotations: map<string, map<string, Value>>, mf: Option<ModelField>,
                        foreignKeyAsList: bool, widgets: map<string, string>, pluralize: string -> string)
    requires Describable(name, f, serializer, mf, foreignKeyAsList, widgets)
    requires AgreesWithComputed(rv1, overrides, name, f, serializer, translatedFields, annotations, mf,
                                foreignKeyAsList, widgets, pluralize)
    requires AgreesWithComputed(rv2, overrides, name, f, serializer, translatedFields, annotations, mf,
                                foreignKeyAsList, widgets, pluralize)
    ensures forall k :: k in ComputedKeys && k !in overrides && k != "extra" ==>
              (k in rv1 <==> k in rv2) && (k in rv1 ==> rv1[k] == rv2[k])
  {
    forall k | k in ComputedKeys && k !in overrides && k != "extra"
      ensures (k in rv1 <==> k in rv2) && (k in rv1 ==> rv1[k] == rv2[k])
    {
      if k == "default" {
        DefaultRuleUnique(f, mf, Lookup(rv1, "default"), Lookup(rv2, "default"));
      } else if k == "ui" {
        UiUnique(rv1["ui"].entries, rv2["ui"].entries, name, f, serializer, annotations, mf);
      } else if k == "validation" {
        ValidationUnique(rv1["validation"].entries, rv2["validation"].entries, f, mf);
      }
    }
  }

  /** The record of a field is determined by the inputs: describing the same
      field of the same serializer twice gives equal records. */
  lemma FieldDictUnique(rv1: map<string, Value>, rv2: map<string, Value>, field: FieldDescriptor,
                        serializer: Serializer, translatedFields: set<string>,
                        annotations: map<string, map<string, Value>>, model: Option<Model>,
                        foreignKeyAsList: bool, widgets: map<string, string>, pluralize: string -> string)
    requires CanDescribe(field, serializer, model, foreignKeyAsList, widgets)
    requires IsFieldDict(rv1, field, serializer, translatedFields, annotations, model, foreignKeyAsList,
                         widgets, pluralize)
    requires IsFieldDict(rv2, field, serializer, translatedFields, annotations, model, foreignKeyAsList,
                         widgets, pluralize)
    ensures rv1 == rv2
  {
    var name := DescriptorName(field);
    match LookupField(serializer, name)
    case None =>
    case Some(f) =>
      var ov := Overrides(field);
      AgreementUnique(rv1, rv2, ov, name.s, f, serializer, translatedFields, annotations,
                      LookupModelField(model, f), foreignKeyAsList, widgets, pluralize);
      SameOnKeys(rv1, rv2, ov.Keys + ComputedKeys);
  }

  /** A record never holds both a related endpoint and a choice list of its
      own making. */
  lemma EndpointExcludesChoices(rv: map<string, Value>, field: FieldDescriptor, serializer: Serializer,
                                translatedFields: set<string>, annotations: map<string, map<string, Value>>,
                                model: Option<Model>, foreignKeyAsList: bool, widgets: map<string, string>,
                                pluralize: string -> string)
    requires CanDescribe(field, serializer, model, foreignKeyAsList, widgets)
    requires IsFieldDict(rv, field, serializer, translatedFields, annotations, model, foreignKeyAsList,
                         widgets, pluralize)
    requires "related_endpoint" !in Overrides(field) && "choices" !in Overrides(field)
    ensures !("related_endpoint" in rv && "choices" in rv)
  {
  }

  /** A name the serializer does not have gives just its key; a dict
      descriptor's overrides are not applied. */
  lemma UnknownNameKeyOnly(rv: map<string, Value>, field: FieldDescriptor, serializer: Serializer,
                           translatedFields: set<string>, annotations: map<string, map<string, Value>>,
                           model: Option<Model>, foreignKeyAsList: bool, widgets: map<string, string>,
                           pluralize: string -> string)
    requires CanDescribe(field, serializer, model, foreignKeyAsList, widgets)
    requires IsFieldDict(rv, field, serializer, translatedFields, annotations, model, foreignKeyAsList,
                         widgets, pluralize)
    requires LookupField(serializer, DescriptorName(field)).None?
    ensures rv.Keys == {"key"} && rv["key"] == DescriptorName(field)
  {
  }

  /** For a name the serializer does not have, only the descriptor's `name`
      is read: whatever its other keys hold, `extra` included, the inputs are
      acceptable. */
  lemma UnknownNameIgnoresExtra(field: FieldDescriptor, serializer: Serializer, model: Option<Model>,
                                foreignKeyAsList: bool, widgets: map<string, string>)
    requires WellFormed(field) && LookupField(serializer, DescriptorName(field)).None?
    ensures CanDescribe(field, serializer, model, foreignKeyAsList, widgets)
  {
  }

  /** A descriptor whose `extra` is None, naming no field of the serializer,
      is acceptable and gives just its key. */
  lemma UnknownNameWithNoneExtra(rv: map<string, Value>, translatedFields: set<string>,
                                 annotations: map<string, map<string, Value>>, pluralize: string -> string)
    requires IsFieldDict(rv, Override(map["name" := Str("virtual"), "extra" := Null]), Serializer(map[], None),
                         translatedFields, annotations, None, false, map[], pluralize)
    ensures rv == map["key" := Str("virtual")]
  {
  }

  /** A descriptor whose `name` cannot be hashed (a list, a dict, a set) is
      refused, as the field lookup raises `TypeError` rather than `KeyError`. */
  lemma UnhashableNameRefused(field: FieldDescriptor)
    requires field.Override? && "name" in field.entries
    requires field.entries["name"].List? || field.entries["name"].Dict? ||
             (field.entries["name"].Obj? && !field.entries["name"].hashable)
    ensures !WellFormed(field)
  {
  }

  /** Listing a relation's records raises when the related model has no
      `objects` manager, even if the field's own queryset is then used, and
      when there is a record to list but the key attribute is None. */
  lemma ListingRefused(name: string, f: FieldInstance, serializer: Serializer, mf: Option<ModelField>,
                       foreignKeyAsList: bool, widgets: map<string, string>)
    requires ListsRecords(f, mf, foreignKeyAsList)
    requires RelatedModelOf(f, mf).value.objects.None? ||
             (ChoiceRecords(f, RelatedModelOf(f, mf).value) != [] && KeyAttr(mf).None?)
    ensures !Describable(name, f, serializer, mf, foreignKeyAsList, widgets)
  {
    if RelatedModelOf(f, mf).value.objects.Some? {
      assert ChoiceRecords(f, RelatedModelOf(f, mf).value)[0] in ChoiceRecords(f, RelatedModelOf(f, mf).value);
    }
  }

  /** A read-only many-related field is not reported read-only. */
  lemma ManyRelatedNotReadOnly(rv: map<string, Value>, field: FieldDescriptor, serializer: Serializer,
                               translatedFields: set<string>, annotations: map<string, map<string, Value>>,
                               model: Option<Model>, foreignKeyAsList: bool, widgets: map<string, string>,
                               pluralize: string -> string, f: FieldInstance)
    requires CanDescribe(field, serializer, model, foreignKeyAsList, widgets)
    requires IsFieldDict(rv, field, serializer, translatedFields, annotations, model, foreignKeyAsList,
                         widgets, pluralize)
    requires LookupField(serializer, DescriptorName(field)) == Some(f)
    requires f.kind.ManyRelated? && DescriptorName(field) != Str("__str__")
    requires "read_only" !in Overrides(field)
    ensures "read_only" in rv && rv["read_only"] == Bool(false)
  {
  }

  /** A relation whose model field is a reverse many-to-many relation is
      never required, whatever the serializer field says. */
  lemma ManyToManyNotRequired(rv: map<string, Value>, field: FieldDescriptor, serializer: Serializer,
                              translatedFields: set<string>, annotations: map<string, map<string, Value>>,
                              model: Option<Model>, foreignKeyAsList: bool, widgets: map<string, string>,
                              pluralize: string -> string, f: FieldInstance)
    requires CanDescribe(field, serializer, model, foreignKeyAsList, widgets)
    requires IsFieldDict(rv, field, serializer, translatedFields, annotations, model, foreignKeyAsList,
                         widgets, pluralize)
    requires LookupField(serializer, DescriptorName(field)) == Some(f)
    requires IsRelation(f.kind)
    requires LookupModelField(model, f).Some? && LookupModelField(model, f).value.className == "ManyToManyRel"
    requires "validation" !in Overrides(field)
    ensures "validation" in rv && rv["validation"].Dict?
    ensures "required" in rv["validation"].entries && rv["validation"].entries["required"] == Bool(false)
  {
  }

  /** A relation linked to its endpoint gets the model field's widget, the
      related model's endpoint, and no choices. */
  lemma EndpointOfLinkedRelation(rv: map<string, Value>, field: FieldDescriptor, serializer: Serializer,
                                 translatedFields: set<string>, annotations: map<string, map<string, Value>>,
                                 model: Option<Model>, foreignKeyAsList: bool, widgets: map<string, string>,
                                 pluralize: string -> string, f: FieldInstance)
    requires CanDescribe(field, serializer, model, foreignKeyAsList, widgets)
    requires IsFieldDict(rv, field, serializer, translatedFields, annotations, model, foreignKeyAsList,
                         widgets, pluralize)
    requires LookupField(serializer, DescriptorName(field)) == Some(f)
    requires LinksEndpoint(f, LookupModelField(model, f), foreignKeyAsList)
    requires "type" !in Overrides(field) && "related_endpoint" !in Overrides(field) && "choices" !in Overrides(field)
    ensures "type" in rv && rv["type"] == Str(widgets[ClassNameOf(LookupModelField(model, f))])
    ensures "related_endpoint" in rv
    ensures rv["related_endpoint"] == Endpoint(RelatedModelOf(f, LookupModelField(model, f)).value, pluralize)
    ensures "choices" !in rv
  {
  }

  /** A relation listed inline gets the choice widget and one choice per
      record, in order, labelled by the record and valued by its key attribute. */
  lemma ChoicesOfListedRelation(rv: map<string, Value>, field: FieldDescriptor, serializer: Serializer,
                                translatedFields: set<string>, annotations: map<string, map<string, Value>>,
                                model: Option<Model>, foreignKeyAsList: bool, widgets: map<string, string>,
                                pluralize: string -> string, f: FieldInstance)
    requires CanDescribe(field, serializer, model, foreignKeyAsList, widgets)
    requires IsFieldDict(rv, field, serializer, translatedFields, annotations, model, foreignKeyAsList,
                         widgets, pluralize)
    requires LookupField(serializer, DescriptorName(field)) == Some(f)
    requires ListsRecords(f, LookupModelField(model, f), foreignKeyAsList)
    requires "type" !in Overrides(field) && "related_endpoint" !in Overrides(field) && "choices" !in Overrides(field)
    ensures "type" in rv && rv["type"] == Str(widgets["choice"])
    ensures "related_endpoint" !in rv
    ensures var mf := LookupModelField(model, f);
            var records := ChoiceRecords(f, RelatedModelOf(f, mf).value);
            && "choices" in rv && rv["choices"].List? && |rv["choices"].items| == |records|
            && forall i :: 0 <= i < |records| ==>
                 rv["choices"].items[i] == Dict(map["label" := Str(records[i].display),
                                                    "value" := records[i].attrs[KeyAttr(mf).value]])
  {
  }

  /** A falsy or callable serializer default gives no `default` key. */
  lemma DroppedDefault(rv: map<string, Value>, field: FieldDescriptor, serializer: Serializer,
                       translatedFields: set<string>, annotations: map<string, map<string, Value>>,
                       model: Option<Model>, foreignKeyAsList: bool, widgets: map<string, string>,
                       pluralize: string -> string, f: FieldInstance)
    requires CanDescribe(field, serializer, model, foreignKeyAsList, widgets)
    requires IsFieldDict(rv, field, serializer, translatedFields, annotations, model, foreignKeyAsList,
                         widgets, pluralize)
    requires LookupField(serializer, DescriptorName(field)) == Some(f)
    requires f.default.Callable? || (f.default.Given? && !Truthy(f.default.v))
    requires "default" !in Overrides(field)
    ensures "default" !in rv
  {
  }
}
