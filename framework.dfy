/** What the introspection reads from Django REST framework and Django: a
    serializer instance, its fields, the model class and its fields, querysets
    and the application settings. Class tests (`isinstance`, `hasattr`,
    `__class__.__name__`) become tags and optional attributes. */
module Framework {
  import opened Values

  /** One row of a queryset: what its `__str__()` returns and its attributes
      (`pk` and the model's fields). */
  datatype Record = Record(display: string, attrs: map<string, Value>)

  /** A Django model class: `_meta.app_label`, `_meta.model_name`, the fields
      `_meta.get_field` finds by name, and what `objects.all()` enumerates
      (None when the model has no manager called `objects`). */
  datatype Model = Model(
    appLabel: string,
    modelName: string,
    fields: map<string, ModelField>,
    objects: Option<seq<Record>>)

  /** A model field's `default`: `NOT_PROVIDED`, a callable (with the value
      calling it returns) or a plain value. */
  datatype ModelDefault = NotProvided | Factory(result: Value) | Constant(v: Value)

  /** A model field or reverse relation as `_meta.get_field` returns it.
      An attribute the object lacks is None: `verboseName` (reverse relations have
      none), `default`, `toFields`; `relatedModel` is None also when the
      attribute is Python None. An entry of `toFields` may itself be None (a
      foreign key whose target field was not given). */
  datatype ModelField = ModelField(
    className: string,
    verboseName: Option<Value>,
    name: string,
    default: Option<ModelDefault>,
    relatedModel: Option<Model>,
    toFields: Option<seq<Option<string>>>)

  /** A queryset: the model it ranges over and its records in iteration order. */
  datatype QuerySet = QuerySet(model: Model, records: seq<Record>)

  /** A serializer field's `default`: the `empty` marker, a callable, or a value. */
  datatype SerializerDefault = Empty | Callable | Given(v: Value)

  /** Which of the class tests of the introspection a serializer field passes:
      one of the three relation classes, or not a relation and exposing a
      `choices` mapping (its items in order), or neither. */
  datatype FieldKind =
    | PrimaryKeyRelated
    | ManyRelated
    | SlugRelated
    | WithChoices(items: seq<(Value, Value)>)
    | Plain

  /** A bound serializer field. `queryset` is None when the field has no such
      attribute or it is None; the four bounds are `Null` when the attribute is
      missing or None. */
  datatype FieldInstance = FieldInstance(
    className: string,
    kind: FieldKind,
    readOnly: bool,
    required: bool,
    helpText: Value,
    default: SerializerDefault,
    source: string,
    queryset: Option<QuerySet>,
    minLength: Value,
    maxLength: Value,
    minValue: Value,
    maxValue: Value)

  /** An instance of the serializer class: its fields by name and the
      `__name__` of `Meta.model`, if it has one. */
  datatype Serializer = Serializer(fields: map<string, FieldInstance>, metaModelName: Option<string>)

  /** The application settings the core reads. */
  datatype Settings = Settings(
    widgetMapping: map<string, string>,
    actionIconClass: Value,
    actionBtnClass: Value)
}
