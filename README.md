# Field introspection of drf_auto_endpoint

A Dafny model of the field introspection in `drf_auto_endpoint/utils.py`. This is the code that turns a Django REST Framework
serializer field into the metadata record a front end renders:

- `get_validation_attrs` collects a field's `min`/`max` bounds;
- `get_field_dict` builds the record of one field: `key`, `type` (the widget), `read_only`, `ui`
  (label, help, placeholder), `validation` (required, min, max), `extra`, `translated`, and at most one each of
  `default`, `related_endpoint` and `choices`. A dict descriptor's overrides are merged in last;
- `action_kwargs` fills in an action button's icon class, button class and text, in place.

## How the model is built (five files)

- `values.dfy` (`Values`) — Python values as a `Value` datatype. Dicts are `map<string, Value>`. Python truthiness is
  modelled too. Any other object (a float, a `Decimal`, a set, a date) is opaque. It carries its identity, what
  `bool()` says of it and whether it can be hashed. So a `0.0` default is falsy and a set cannot be looked up.
- `framework.dfy` (`Framework`) — what the code reads from Django and DRF, as plain data:
  - a serializer field and its kind (primary-key, many-related or slug relation; a field with `choices`; any other);
  - a model field, with its default and its related model;
  - a queryset as the sequence of its records;
  - the settings.
- `text.dfy` (`Text`) — `str.lower()`, `str.title()`, `str.replace()` and Django's `capfirst`.
- `utils.dfy` (`Utils`) — the three operations, written as imperative methods over local maps, as the source mutates
  its local dicts:
  - `GetValidationAttrs` keeps the loop over the attribute table.
  - `GetFieldDict` is split into methods, one per stage of the source. Each is proved against a specification
    function or predicate: `UiMatches`, `DefaultRule`, `TypeOf`, `EndpointOf`, `ChoicesOf`, `ValidationMatches`.
    `DefaultRule` states the default case by case. `Properties.DefaultRuleUnique` shows the cases cover every input
    and fix the default.
  - The predicate `IsFieldDict` states the whole record key by key.
  - A descriptor's `extra` is what `dict.update` takes: a dict, or a list of `[key, value]` pairs, where a later pair
    wins.
  - The kwargs dict `action_kwargs` mutates is a class `Kwargs`. `ActionKwargs` updates it in place and returns it.
- `properties.dfy` (`Properties`) — lemmas about the record as a whole:
  - the record is determined by its inputs;
  - the endpoint and choices exclude each other;
  - the short-circuit for unknown names;
  - the relation and default rules.

Three things from the environment are parameters:

- settings lookups: `WIDGET_MAPPING` is the map `widgets`, and the two action defaults are in `Settings`;
- the inflector's `pluralize` is a function `string -> string`;
- the serializer class is given as the instance it constructs.

The source's failure cases are preconditions, in `WellFormed`, `CanDescribe` and `Describable`:

- a dict descriptor without `name`, which is a `KeyError` at line 57;
- a descriptor whose `name` is a list, a dict or another unhashable object such as a set, which is a `TypeError`
  (unhashable key) at line 59;
- a `WIDGET_MAPPING` miss, which is a `KeyError` at lines 69, 127, 135 and 153;
- describing `__str__` when the serializer's `Meta` has no `model`, which is an `AttributeError` at line 74;
- a relation listed inline whose related model has no `objects` manager, which is an `AttributeError` at line 136.
  The manager is read before line 138 replaces it with the field's own queryset, so this holds even when there is one;
- a listed record without the key attribute, which is an `AttributeError` at line 148. So is a `to_fields[0]` of
  None (lines 141-143): `getattr(record, None)` is a `TypeError`. With no records to list, neither is raised;
- for a field the serializer has, an `extra` that `dict.update` refuses at line 165 (None, say). For an unknown
  name, `extra` is never read. The source returns at line 61 first, and the model then accepts any `extra`.

At line 127 `model_field` may be None when the related model came from the field's queryset. The model then looks up
the class name of None, `"NoneType"`, as the source does.

Several `_length`/`_value` attributes can feed the same bound. The loop of `get_validation_attrs` then assigns every
non-None one in table order, so `min_value` overwrites `min_length` and `max_value` overwrites `max_length`. The model
follows that order: the `_value` attribute wins.

## Model

| member | source | states |
|---|---|---|
| `Utils.GetValidationAttrs` | drf_auto_endpoint/utils.py:35-48 | result keys lie within `min` and `max`, and each key is present iff one of its two attributes is not None; the `_value` attribute wins over the `_length` one (loop invariant over the table rows seen so far) |
| `Utils.MergeBounds` | drf_auto_endpoint/utils.py:161 | adding the bounds to `validation` keeps `required` unchanged, adds exactly the bounds, and adds no other key |
| `Utils.RecordChoices` | drf_auto_endpoint/utils.py:140-150 | one entry per record, in order, labelled by the record's string form, valued by its key attribute |
| `Utils.ItemChoices` | drf_auto_endpoint/utils.py:152-159 | one `{label: v, value: k}` entry per `(k, v)` choice item, in order |
| `Utils.DescribeUi` | drf_auto_endpoint/utils.py:83-103 | `ui` holds exactly: a label (the model field's verbose name, else its name, else the model name for `__str__`, else the title-cased name); the annotation's help, else a non-None help text; the annotation's placeholder |
| `Utils.ResolveDefault` | drf_auto_endpoint/utils.py:105-112 | the default meets `DefaultRule`. A truthy plain serializer default is kept, and a falsy or callable one gives none. For `empty`, the model field's default is used (a callable one's result). There is none when the model field is missing, lacks `default`, or has `NOT_PROVIDED` |
| `Utils.PairEntries` | drf_auto_endpoint/utils.py:165 | updating a dict with a list succeeds exactly when every item is a `[key, value]` pair |
| `Utils.PairEntriesKeys` | drf_auto_endpoint/utils.py:165 | updating a dict with pairs adds exactly the pairs' keys |
| `Utils.PairEntriesLastWins` | drf_auto_endpoint/utils.py:165 | updating a dict with pairs gives each key the value of the last pair with that key |
| `Utils.FixedRecord` | drf_auto_endpoint/utils.py:67-81 | the literal that starts the record has exactly the seven keys `key`, `type`, `read_only`, `ui`, `validation`, `extra` and `translated`, with the given values and an empty `extra` |
| `Utils.MergeShape` | drf_auto_endpoint/utils.py:163-167 | after merging a dict descriptor, the keys are the computed ones and the descriptor's. The descriptor's values win, except `extra`, which is the updated one. Every other key is as it was |
| `Utils.DescribeRelation` | drf_auto_endpoint/utils.py:114-159 | the widget follows the relation and choice rules; `required` is forced off exactly for a required relation whose model field is `ManyToManyRel`; the endpoint and choice entries are the specified ones |
| `Utils.ComputedRecord` | drf_auto_endpoint/utils.py:67-81 | the record has the seven fixed keys with the given values, and `default`, `related_endpoint` and `choices` exactly when they are given |
| `Utils.DescribeField` | drf_auto_endpoint/utils.py:62-161 | the record of a known field agrees with every computed rule, has only computed keys, and has an empty `extra` |
| `Utils.MergeKeepsComputed` | drf_auto_endpoint/utils.py:163-167 | merging a dict descriptor keeps every computed key the descriptor does not name and sets `extra` to the computed one updated with the descriptor's; the result is the specified record |
| `Utils.GetFieldDict` | drf_auto_endpoint/utils.py:51-169 | the result is `{key: name}` for an unknown name; otherwise its keys are the computed ones and the descriptor's; every key the descriptor gives, other than `extra`, has the descriptor's value; `extra` is the descriptor's; every other key is the computed one |
| `Utils.ActionKwargs` | drf_auto_endpoint/utils.py:172-184 | returns the same dict; adds exactly `icon_class`, `btn_class` and `text`, each the argument when not None, else the setting or `capfirst(lower(name))`; every other caller key is unchanged |
| `Text.Lower` | drf_auto_endpoint/utils.py:130 | `lower()` keeps the length and lower-cases each character |
| `Text.TitleFrom` | drf_auto_endpoint/utils.py:72 | `title()` keeps the length, upper-cases a letter that follows an uncased character (or starts the string), and lower-cases one that follows a letter |
| `Text.ReplaceChar` | drf_auto_endpoint/utils.py:72 | `replace('_', ' ')` keeps the length and swaps exactly the underscores |
| `Text.FieldLabelShape` | drf_auto_endpoint/utils.py:72 | the derived label keeps the name's length and has no underscore, and every letter that begins a word is upper-case |
| `Text.TitleIdempotent` | drf_auto_endpoint/utils.py:72 | title-casing is idempotent |
| `Text.CapFirst` | drf_auto_endpoint/utils.py:180 | `capfirst` keeps the length, upper-cases the first character and leaves the rest |
| `Text.ActionTextShape` | drf_auto_endpoint/utils.py:180 | the default action text keeps the length, capitalises the first character and lower-cases the rest |
| `Properties.FieldDictUnique` | drf_auto_endpoint/utils.py:51-169 | two records that both meet the record specification for the same inputs are equal: the specification fixes the result |
| `Properties.UnknownNameKeyOnly` | drf_auto_endpoint/utils.py:57-61 | a name the serializer lacks gives exactly `{key: name}`, with no override applied |
| `Properties.UnknownNameIgnoresExtra` | drf_auto_endpoint/utils.py:57-61 | for a name the serializer lacks, only `name` must be well-formed; every `extra` is accepted |
| `Properties.UnknownNameWithNoneExtra` | drf_auto_endpoint/utils.py:57-61 | `{'name': 'virtual', 'extra': None}`, naming no field, is accepted and gives `{'key': 'virtual'}` |
| `Properties.UnhashableNameRefused` | drf_auto_endpoint/utils.py:57-61 | a descriptor whose `name` is a list, a dict or an unhashable object is refused: the lookup raises `TypeError`, which the `except KeyError` does not catch |
| `Properties.ListingRefused` | drf_auto_endpoint/utils.py:134-150 | listing a relation is refused when the related model has no `objects` manager, even if the field's own queryset would be used. It is also refused when a record is to be listed and the key attribute is None |
| `Properties.DefaultRuleUnique` | drf_auto_endpoint/utils.py:105-112 | the default rule covers every input and allows exactly one default |
| `Properties.ManyRelatedNotReadOnly` | drf_auto_endpoint/utils.py:62-65 | a many-related field other than `__str__` is reported not read-only |
| `Properties.ManyToManyNotRequired` | drf_auto_endpoint/utils.py:122-123 | a relation whose model field is `ManyToManyRel` has `validation.required == False` |
| `Properties.EndpointOfLinkedRelation` | drf_auto_endpoint/utils.py:125-132 | a relation linked to its endpoint gets the model field's widget, the endpoint `{app, singular: lower(name), plural: pluralize(lower(name))}`, and no choices |
| `Properties.ChoicesOfListedRelation` | drf_auto_endpoint/utils.py:134-150 | a relation listed inline gets the choice widget, no endpoint, and one choice per record of the queryset in use, in order |
| `Properties.DroppedDefault` | drf_auto_endpoint/utils.py:105-112 | a falsy or callable serializer default gives no `default` key |
| `Properties.EndpointExcludesChoices` | drf_auto_endpoint/utils.py:125-159 | a record never holds both a computed `related_endpoint` and computed `choices` |

## Left out

- `reverse` (lines 19-32) is an import shim around Django's URL resolution, with no logic of its own.
- `get_languages` (lines 187-193) is a read of Django settings.
- The inflector's construction (lines 15-16) and its pluralisation rules are left out. `pluralize` is a parameter.
- Django and DRF introspection is replaced by plain data:
  - `isinstance` becomes the field's kind;
  - `hasattr` becomes optional fields;
  - `_meta.get_field` becomes a map lookup on the model's fields.
  Class hierarchies are not modelled: a subclass of a relation field must be given its kind.
- Database access is not modelled. `qs.all()` and a record's `__str__` are a given sequence of records, each with a
  given string form and attributes.
- `str.title()`, `str.lower()` and `capfirst` are modelled on ASCII letters only. Every other character counts as
  uncased and is left unchanged.
- Dict key order is not modelled: records are maps. The order of choice items is kept.
- The nested `ui`, `validation` and `extra` dicts are mutated in place in the source. The model builds them as local
  maps and stores them into the record, so no alias to them is kept.
- Opaque Python objects (floats, `Decimal`s, sets, dates, lazy strings, model instances) are compared by identity.
  Each carries its truthiness. A callable default is a marker, and a callable model default carries the result of
  calling it.
- Tuples are modelled as lists. So a tuple used as a descriptor's `name`, which Python could look up, is excluded
  with the lists.
- `extra` as another iterable `dict.update` would take is outside the model: a list of two-character strings, an
  empty string, a generator, or keys that are not strings. Dicts in the model have string keys only.
- The default given for `translated_fields` (None becomes `[]`) and for `fields_annotation` (False) are not separate
  cases. An empty set and an empty map behave the same.
- `Utils.GetFieldDict`: these failures are preconditions, not error results:
  - a `KeyError` for a descriptor without `name` (line 57) or a `WIDGET_MAPPING` miss (lines 69, 127, 135, 153);
  - a `TypeError` for an unhashable `name` (line 59), a None key attribute (line 148) or an `extra` `dict.update`
    refuses (line 165);
  - an `AttributeError` for `__str__` without `Meta.model` (line 74), a related model without `objects` (line 136)
    or a record without its key attribute (line 148).
