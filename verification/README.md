# relation-wrapper, modelled in Dafny

relation-wrapper is a charm library. It gives a typed, permission-checked view
over the string-to-string *databags* that the applications and units in a
relation publish to one another. A *template* declares a schema per databag for
the provider and the requirer side. An *endpoint* resolves the template to the
four databag slots of each live relation: local app, local unit, remote app and
remote units. Each slot is wrapped in a `DataWrapper`, which:

- checks field names against the schema;
- stores values as their JSON text and reads them back through the field's type;
- refuses writes the local unit is not allowed to make;
- rates the databag Valid, Unfilled or Invalid (Python `True`, `None`, `False`).

These verdicts roll up, through the worst-case reduction `get_worst_case`, to
each relation and then to the endpoint.

The repository carries the design twice. `endpoint_wrapper.py` is the newer,
partly refactored revision. `relation.py` is the older, self-consistent one.
Where the two differ, the model says which one it follows.

Modules, one per file:

- `Wrappers` (`wrappers.dfy`): `Option`, `Result` and `Outcome`. A raised
  exception is a `Failure`/`Fail` value.
- `Verdicts` (`verdicts.dfy`): the three-valued verdict, `get_worst_case` as a
  loop proved against a fold, and the fold's algebra.
- `Decimal` (`decimal.dfy`): `str(n)` for integers and Python's `int(text)`.
  The latter covers whitespace stripping, a sign, single underscores between
  digits and leading zeros.
- `Json` (`json.dfy`): `json.dumps` and `json.loads` restricted to integers
  and strings. Strings use the default ASCII-only escaping, including UTF-16
  surrogate pairs.
- `Models` (`models.dfy`): schemas, `DataBagModel`, the template,
  `RelationModel` and role resolution.
- `Validator` (`validator.dfy`): `DataclassValidator` (`check_field`,
  `serialize`, `deserialize`, `validate`), the verdict rule of
  `PydanticValidator`, and `get_defaults`.
- `Databags` (`databags.dfy`): the shared `Databag` object and the
  `DataWrapper` class over it.
- `Relations` (`relation.dfy`): `Relation`, with its four slots, permissions
  and roll-ups.
- `Endpoints` (`endpoint.dfy`): the endpoint view. It covers the aggregate
  verdicts, the collection accessors, `wrap`, and the publication of schema
  defaults.

The host framework supplies four things, which become plain inputs:

- the list of live relations, each with an id, a remote application, remote
  units and one `Databag` per entity;
- leadership;
- whether the endpoint is declared under `requires`;
- whether the schema is a dataclass.

A schema is a `map<string, Field>`. Each field has a type, `IntType` or
`StrType`, and an optional default. A field without a default is required.

Three behaviours of the code a reader may not expect:

- With no live relation, every endpoint verdict is Valid, including `valid`,
  `local_valid` and `remote_valid` (`endpoint_wrapper.py:756-793`: the
  worst case of no verdicts is `True`). This is `Endpoints.EndpointValidAt`
  and `Endpoints.NoRelationsIsValid`.
- Deleting a key assigns it the empty string (`endpoint_wrapper.py:501-503`).
  The host framework's databag drops a key assigned the empty string; the
  test at `test/test_data_interface_write.py:203-213` relies on this. So a
  deleted key is missing afterwards, and a required field that is deleted
  leaves the databag Unfilled (`Databags.DeleteRemovesKey`). The same holds
  for the empty string written without a schema, which is stored verbatim
  (`Databags.WriteThenLookup`). `Databags.Databag.Put` models that
  assignment.
- A string written to a `str` field is stored JSON-quoted
  (`endpoint_wrapper.py:258-279`). The dataclass backend reads it back with
  `str()` (`endpoint_wrapper.py:198-204`), so the quotes are kept
  (`Validator.TypedStrKeepsQuotes`).

`endpoint_wrapper.py:434` gates writes on `self._can_write`, an attribute that
revision never sets. The model gates on the flag stored at construction
(`endpoint_wrapper.py:472`), as `relation.py:429-436` does.

## Model

| member | source | states |
|---|---|---|
| Verdicts.GetWorstCase | endpoint_wrapper.py:649-657 | the accumulator loop returns the left fold of the inputs from Valid. It is Invalid if any input is Invalid, else Unfilled if any is Unfilled, else Valid |
| Verdicts.WorstOfIsMinimum | relation.py:633-641 | the reduction is a lower bound of every input, one of the inputs when there are any, and Valid for the empty input |
| Verdicts.WorstOfCases | endpoint_wrapper.py:649-657 | the reduction is Invalid if some input is Invalid, else Unfilled if some input is Unfilled, else Valid |
| Verdicts.WorstOfAppend | endpoint_wrapper.py:599-612 | reducing a concatenation equals reducing each part and taking the worse result, so nested roll-ups agree with a flat one |
| Verdicts.WorstOfPermutation | endpoint_wrapper.py:649-657 | the result does not depend on the order of the inputs |
| Verdicts.WorstIsMeet | endpoint_wrapper.py:649-657 | worse-of is commutative, associative and idempotent, has Valid as unit and Invalid as absorbing element |
| Verdicts.WorstOfPointwise | endpoint_wrapper.py:780-793 | folding pointwise worst cases gives the worse of the two folds |
| Decimal.ParseDecimalText | endpoint_wrapper.py:198-204 | `int()` applied to the decimal text of any integer gives back that integer |
| Json.LoadsDumpsString | endpoint_wrapper.py:279 | `json.loads` of `json.dumps(s)` is `s` for every string, surrogate pairs included |
| Json.LoadsDecimalText | endpoint_wrapper.py:279 | `json.loads` of the JSON text of an integer is that integer |
| Models.RelationModel.Get | endpoint_wrapper.py:153-155 | each slot name selects the schema of that slot: local app/unit from the local side, remote app/unit from the remote side |
| Models.AsRequirerModel | endpoint_wrapper.py:106-113 | the requirer side fills the local slots and the provider side the remote ones; a missing side gives no schema in both of its slots |
| Models.AsProviderModel | endpoint_wrapper.py:115-122 | the provider side fills the local slots and the requirer side the remote ones; a missing side gives no schema |
| Models.FromCharm | endpoint_wrapper.py:141-151 | no template gives no schema in any slot; otherwise the requirer view iff the endpoint is declared under `requires`, else the provider view |
| Models.RoleResolutionIsSwap | relation.py:83-99 | the provider view mirrors the requirer view slot for slot, and equals the requirer view of the template with its sides exchanged |
| Models.MissingSideIsUnchecked | endpoint_wrapper.py:106-122 | with no provider side, the requirer view has no remote schemas and the provider view no local ones |
| Validator.CheckField | endpoint_wrapper.py:249-256 | no schema gives no field descriptor; an undeclared name fails with InvalidFieldName; a declared name gives its field |
| Validator.Coerce | endpoint_wrapper.py:198-204 | a successful coercion has the field's type; `str()` accepts every text unchanged; for an int field the value is what Python's `int()` parses, and a text `int()` rejects fails |
| Validator.CoerceRejectsAsciiSeparators | endpoint_wrapper.py:198-204 | for every separator U+001C to U+001F and every non-empty run of digits, the separator before or after the digits makes the text fail int coercion: `int()` does not strip it |
| Validator.Serialize | endpoint_wrapper.py:258-279 | without a schema it never fails and passes strings verbatim; with one, an undeclared key fails with InvalidFieldName and a value of the wrong type with Coercion, and exactly the well-typed values succeed |
| Validator.Deserialize | endpoint_wrapper.py:281-295 | without a schema it never fails and returns what `json.loads` decodes, or the raw text when that fails; with one, an undeclared key fails with InvalidFieldName, and it succeeds iff the text coerces to the declared type, returning exactly the coerced value |
| Validator.JsonLoadsDumps | endpoint_wrapper.py:279 | decoding the JSON text of a value gives the value back |
| Validator.TypedIntRoundTrip | endpoint_wrapper.py:258-295 | an int written to an int field is stored as its decimal text and reads back as the same int |
| Validator.TypedStrKeepsQuotes | relation.py:251-288 | a string written to a str field is stored as its JSON text, which reads back as that quoted text, not the string written; decoding that text as JSON gives the string |
| Validator.UntypedIntRoundTrip | endpoint_wrapper.py:260-263 | without a schema an int round-trips through `json.dumps`/`json.loads` |
| Validator.UntypedStrRoundTrip | endpoint_wrapper.py:283-288 | without a schema a string that is not a JSON document reads back unchanged through the raw-text fallback |
| Validator.UntypedDigitStringBecomesInt | endpoint_wrapper.py:260-288 | without a schema the string "42" is stored verbatim and reads back as the int 42 |
| Validator.Validate | endpoint_wrapper.py:206-247 | the flag loops compute the declarative verdict. No schema gives Valid. A missing required field gives Unfilled even when keys are bad. Otherwise an undeclared or uncoercible key gives Invalid, or ValidationFailed when raising. Otherwise Valid |
| Validator.SubBagOfValidIsNotInvalid | relation.py:199-240 | dropping entries from a Valid databag can make it Unfilled but never Invalid |
| Validator.StoreKeepsVerdict | endpoint_wrapper.py:488-499 | storing the serialization of a well-typed value under a declared key keeps a Valid databag Valid and adds no bad entry |
| Validator.PydanticValidate | endpoint_wrapper.py:328-348 | no schema or a library acceptance gives Valid; a rejection gives Unfilled on empty data, and Invalid (or ValidationFailed when raising) otherwise |
| Validator.GetDefaults | endpoint_wrapper.py:835-841 | a dataclass schema gives every declared default; otherwise only the truthy ones; either way a subset of the declared defaults, with the declared values |
| Validator.DataclassDefaults | endpoint_wrapper.py:844-849 | exactly the fields that declare a default, each mapped to its default |
| Validator.PydanticDefaults | endpoint_wrapper.py:852-857 | exactly the fields whose declared default is truthy (not zero, not the empty string), each mapped to its default |
| Validator.PydanticDefaultsAreTruthyDefaults | endpoint_wrapper.py:852-857 | the pydantic rule keeps exactly the truthy declared defaults, with their values |
| Validator.DataclassDefaultsExample | test/test_data_auto_write.py:94-104 | for two required and two defaulted fields, only the defaulted ones come back, mapped to their defaults |
| Validator.DefaultsCoverOptionalFields | relation.py:826-831 | a field appears among the dataclass defaults iff it declares one, mapped to it; data holding every field without a default misses nothing |
| Databags.Lookup | relation.py:466-471 | the field check comes first (InvalidFieldName), then the key lookup (KeyMissing), then deserialization |
| Databags.Write | endpoint_wrapper.py:487-499 | the permission check (CannotWrite) comes before the field check (InvalidFieldName), which comes before serialization (Coercion); exactly the well-typed values of declared keys get through |
| Databags.Erase | endpoint_wrapper.py:500-503 | the permission check comes before the field check, and success assigns the empty text |
| Databags.Databag.Put | test/test_data_interface_write.py:203-213 | assigning the empty text removes the key; any other text is stored under the key; nothing else changes |
| Databags.WriteThenLookup | endpoint_wrapper.py:480-499 | what a successful write stores reads back: the same int for ints, a value of the declared type under a schema; the one exception is the empty string written without a schema, which removes the key so that reading it gives KeyMissing |
| Databags.DeleteRemovesKey | endpoint_wrapper.py:500-503 | after a delete the key is absent and reads as KeyMissing; deleting a required field leaves the databag Unfilled; a Valid databag never becomes Invalid by a delete |
| Databags.DataWrapper.Keys | endpoint_wrapper.py:474-475 | iteration yields exactly the databag's keys |
| Databags.DataWrapper.Size | endpoint_wrapper.py:477-478 | the length is the number of keys |
| Databags.DataWrapper.Get | endpoint_wrapper.py:480-485 | item access follows the lookup order, reads the shared databag and changes nothing; success implies the key is present |
| Databags.DataWrapper.Set | endpoint_wrapper.py:487-499 | a failure leaves the databag unchanged; success assigns the serialized text to that key through the framework (removing the key when the text is empty) and changes nothing else |
| Databags.DataWrapper.Delete | relation.py:486-489 | a failure leaves the databag unchanged; success removes the key and changes nothing else |
| Databags.DataWrapper.Valid | endpoint_wrapper.py:512-515 | the verdict is that of the bound schema on the databag's current contents |
| Databags.DataWrapper.Validate | endpoint_wrapper.py:517-519 | raises ValidationFailed exactly when the databag is Invalid |
| Databags.WriteIsShared | test/test_data_interface_write.py:110-115 | an int written through a writable wrapper reads back through any other wrapper over the same databag, and a Valid databag stays Valid |
| Relations.Relation.WrapData | endpoint_wrapper.py:614-623 | the wrapper reads the given entity's databag, carries the schema `get` gives for the slot, and the given write permission |
| Relations.Relation.LocalAppData | endpoint_wrapper.py:625-628 | the local application's databag, under the local app schema, writable iff leader |
| Relations.Relation.RemoteAppData | endpoint_wrapper.py:630-633 | the remote application's databag, under the remote app schema, read-only |
| Relations.Relation.LocalUnitData | endpoint_wrapper.py:635-638 | the local unit's databag, under the local unit schema, always writable |
| Relations.Relation.RemoteUnitsData | endpoint_wrapper.py:641-646 | one wrapper per remote unit, keyed by that unit; each reads that unit's databag under the remote unit schema and is read-only |
| Relations.Relation.LocalAppValid | endpoint_wrapper.py:594-597 | the verdict of the local application's databag under the local app schema |
| Relations.Relation.LocalUnitValid | endpoint_wrapper.py:589-592 | the verdict of the local unit's databag under the local unit schema |
| Relations.Relation.RemoteAppValid | endpoint_wrapper.py:584-587 | the verdict of the remote application's databag under the remote app schema |
| Relations.Relation.RemoteUnitsValid | endpoint_wrapper.py:577-582 | Valid with no remote units; never better than any remote unit's databag verdict under the remote unit schema |
| Relations.WritePermissions | endpoint_wrapper.py:625-646 | the local unit wrapper is always writable; the local app wrapper is writable iff leader; remote wrappers never are; each slot gets its own schema |
| Relations.RemoteUnitsVerdict | relation.py:562-566 | the remote units' verdict is Invalid iff some remote unit's is, and Valid iff all are |
| Relations.Relation.LocalValid | endpoint_wrapper.py:600-602 | the local verdict is the worse of the local app and local unit verdicts |
| Relations.Relation.RemoteValid | endpoint_wrapper.py:605-607 | the remote verdict is the worse of the remote app verdict and the remote units' verdict |
| Relations.Relation.Valid | endpoint_wrapper.py:610-612 | the relation verdict is the worse of the local and remote verdicts |
| Relations.RelationValidIsWorstOfEveryBag | endpoint_wrapper.py:577-612 | the relation verdict is the worst case over all its databags: local app, local unit, remote app and each remote unit |
| Relations.RelationValidIffEveryBagValid | relation.py:561-596 | a relation is Valid iff each of its databags is |
| Endpoints.NewEndpoint | endpoint_wrapper.py:686-703 | the endpoint's schema is the requirer view, the provider view or no schema, as `from_charm` chooses |
| Endpoints.RelationsOf | endpoint_wrapper.py:743-754 | one relation per live framework relation, in order, each with the endpoint's schema, local entities and leadership |
| Endpoints.Wrap | endpoint_wrapper.py:734-736 | the first relation carrying the given id; none exactly when no relation carries it |
| Endpoints.EndpointValidAt | relation.py:738-775 | each endpoint verdict is Valid with no relations, Invalid iff some relation's is, and Valid iff every relation's is |
| Endpoints.NoRelationsIsValid | endpoint_wrapper.py:766-793 | with no live relation every endpoint verdict is Valid |
| Endpoints.EndpointRollUp | endpoint_wrapper.py:756-793 | the endpoint's `valid` is the worse of its `local_valid` and `remote_valid`, and each of those is the worse of its two parts, as within each relation |
| Endpoints.LocalAppsData | endpoint_wrapper.py:796-800 | empty without relations; one key per remote application, holding the local app wrapper of the last relation with that remote application |
| Endpoints.RemoteAppsData | endpoint_wrapper.py:803-805 | one key per remote application, holding the remote app wrapper of the last relation with that remote application |
| Endpoints.LocalUnitsData | relation.py:790-794 | empty without relations; one key per remote application, holding the local unit wrapper of the last relation with that remote application |
| Endpoints.LocalUnitsDataKeepsEveryRelation | relation.py:790-794 | with distinct remote applications, there is one entry per relation and each relation's local unit wrapper is under its remote application |
| Endpoints.LocalUnitsDataByLocalUnit | endpoint_wrapper.py:808-812 | empty without relations; keyed by the relations' local units |
| Endpoints.ByLocalUnitKeepsOnlyLast | endpoint_wrapper.py:808-812 | all relations share the local unit, so keying by it keeps only the last relation's wrapper |
| Endpoints.UnionLaterWins | endpoint_wrapper.py:817-820 | successive updates hold every key of every map, with the value of the last map having it |
| Endpoints.UpdateAll | endpoint_wrapper.py:817-820 | the update loop builds the union of the maps, later ones overriding earlier ones |
| Endpoints.RemoteUnitsData | relation.py:797-802 | the dict built by the loop is the later-wins union of the relations' remote-unit maps |
| Endpoints.RemoteUnitsLaterWins | endpoint_wrapper.py:814-820 | the endpoint's remote-unit map holds every remote unit of every relation, mapped to the wrapper of the last relation having it |
| Endpoints.Published | endpoint_wrapper.py:829-832 | every text publishing stores comes from a default and reads back through the schema |
| Endpoints.WriteAll | relation.py:812-814 | the write loop succeeds iff every default has its field's type. Then the databag is its old contents overridden by the published texts. On failure it raises Coercion, and each key holds its old value or its published text, with no old key lost |
| Endpoints.PublishTo | relation.py:805-814 | no schema leaves the databag untouched; otherwise the defaults of the schema are written as the loop does |
| Endpoints.PublishDefaults | endpoint_wrapper.py:724-732 | passes iff every default has its field's type in the local unit schema and, for a leader, in the local app schema; the local app databag is written only when leader; a databag whose publish succeeded holds its old contents overridden by the published defaults; a failure on the local app leaves the local unit databag untouched; the databag that failed keeps every old key, each holding its old or its published text |
| Endpoints.DefaultsAloneVerdict | endpoint_wrapper.py:822-857 | a databag holding only the published defaults of a well-typed schema is Valid iff the schema has no required field, else Unfilled |
| Endpoints.PublishKeepsVerdict | relation.py:804-831 | publishing defaults keeps a Valid databag Valid and adds no bad entry to any databag |

## Findings

| source | as written | input that shows it | evidently intended | confidence | as-written member | corrected member |
|---|---|---|---|---|---|---|
| endpoint_wrapper.py:808-812 | `local_units_data` keys each relation's local unit wrapper by `r.local_unit`, which is the same unit for every relation of the endpoint | two live relations with different remote applications: the result has one key, and the first relation's local unit wrapper is not in it | one entry per remote application, as the docstring says and `relation.py:790-794` does; against this, the return annotation at `endpoint_wrapper.py:808` is `Dict[Unit, ...]`, and `test/test_data_auto_write.py:130` indexes the result by `relations.local_unit`, so the as-written keying may be intended | low to medium, contested; not executed | Endpoints.ByLocalUnitKeepsOnlyLast | Endpoints.LocalUnitsDataKeepsEveryRelation |

## Left out

- Event registration and framework glue: `framework.observe`, `Object.__init__`, `charm.on[...]` and the handlers passed as keyword arguments. Charm metadata is the boolean `isRequirer`; leadership is a boolean.
- `Databags.Databag.Put`: of the host framework's databag, only the rule that assigning the empty text removes the key is modelled. The framework's own checks (string-only values, its write-access enforcement) are not part of this model.
- The role warning at `endpoint_wrapper.py:696-698` and all logging: they only print.
- `__repr__`, `__eq__` and `__bool__`: presentation and comparison helpers with nothing to prove.
- The pydantic library: `_load`, `parse_obj_as`, `parse_raw_as`, `model.validate`, `.json()`, and `PydanticValidator.check_field`/`coerce`/`serialize`/`deserialize`. They are foreign calls. Only the verdict rule of `PydanticValidator.validate` is modelled, with the library's verdict as an input. `DataWrapper` always uses the dataclass backend.
- `_get_default_validator` / `DEFAULT_VALIDATOR`: an import probe. The backend is passed explicitly.
- Validator aliasing: one validator instance per relation is re-bound by every wrapper built on it (`validator.model = model`). The model binds the schema per wrapper, as `DataWrapperParams.model` records it.
- Nested models, `dataclasses.asdict` and JSON values other than integers and strings. Untyped reads of floats, booleans, `null`, arrays, objects or lone-surrogate escapes fall back to the raw text. `Json.LoadsInt` and `Json.LoadsString` do not model Python's extra float, NaN and Infinity literals.
- Float-typed fields, because they involve floating-point parsing and printing. Booleans as ints (`isinstance(True, int)`) are also left out.
- `Decimal.ParseInt`: non-ASCII decimal digits and the 4300-digit conversion limit of `int()` are not modelled.
- `Decimal.DecimalText`, `Validator.JsonDumps`, `Validator.Serialize`, `Validator.Deserialize`: Python refuses to convert an integer of more than 4300 digits to text or back. So `str(n)` and `json.dumps(n)` raise ValueError for such an `n`, and `__setitem__` raises where `Serialize` and `Databags.Write` succeed. Without a schema, `json.loads` of such a literal raises a ValueError that `deserialize` does not catch, where `Deserialize` succeeds. `Decimal.ParseDecimalText`, `Json.LoadsDecimalText` and `Validator.TypedIntRoundTrip` therefore hold in Python only for integers of at most 4300 digits.
- `Template.to_dict` / `DataBagModel.to_dict`: reflective schema dumps.
- The role-typed `Template(...)` factory and `EndpointWrapper(...)` alias: thin constructors.
- `endpoint_wrapper.py:828-829` reads `data._can_write` and `data._model`, which `DataWrapper` in that revision does not have. `Endpoints.PublishTo` models the working form at `relation.py:810-811`. The `isinstance(data, dict)` early return is unreachable for a wrapper and is not modelled.
- `Endpoints.PublishTo`, `Endpoints.WriteAll`: iterate the defaults in an arbitrary key order, because Python's dict order is not modelled. So when a default has the wrong type, which earlier defaults were written is stated only as "each key holds its old value or its published text".
- `Endpoints.PublishDefaults`: takes the relation `wrap` found, rather than looking it up. When no relation carries the event's id, `Endpoints.Wrap` returns none; the source raises StopIteration there.
- `Relations.Relation.RemoteUnitsData`: the remote-unit wrappers are keyed by unit name and the relation's unit tuple is fixed. Object identity of units and the `wraps` identity test are modelled by names and relation ids.
