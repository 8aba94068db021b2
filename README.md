# Documentation filter and schema customiser, modelled in Dafny

This project models the two extension points a Django REST Framework project
adds to the drf_yasg OpenAPI (Swagger 2.0) generator:

- **`WhiteListedViewsEndpointEnumerator`** (documentation/generators.py) keeps an
  endpoint in the generated documentation only when its handler identifier
  `"<module>.<ClassName>"` is in an allow-list. When it is listed, the host
  enumerator's own rule decides. The allow-list comes from the class attribute
  `allowed_views` or from an overridden `get_allowed_views`.
- **The schema customiser** (documentation/schema.py) has five parts:
  - `guess_response_status` guesses 200 (OK, section 15.3.1 of RFC 9110) or
    204 (No Content, section 15.3.5 of RFC 9110) from the HTTP method;
  - `get_default_responses` collapses the host's response map into one entry;
  - `NoSchemaTitleInspector.process_result` strips `title` from a schema node in place;
  - `get_default_response_serializer` and `get_view_serializer` choose serializers by precedence;
  - `get_operation_id` returns the endpoint path.

Files:

- `wrappers.dfy`: `Option` and `Result`.
- `decimal.dfy`: Python's `str()` of an integer, used for response keys, and a parser that reads a key back.
- `generators.dfy`: module `Generators`, the endpoint filter.
  Python's `hasattr`/`AttributeError` probing becomes `Option` fields on `ViewClass` and `Callback`.
  The subclass override of `get_allowed_views` becomes the `Accessor` datatype.
  The host rule (`super().should_include_endpoint`) is a predicate parameter.
- `schema.py` is split in two:
  - `schema.dfy`: module `Schema`, the pure parts.
    `AutoSchema` stands for an `ElexApisAutoSchema` bound to one view, path and method.
    The optional view attributes are `Option` fields of `View`.
    The host contributions are the fields of `Host`: the `super()` results, and `get_serializer_class` and `force_serializer_instance` as uninterpreted functions.
  - `title_inspector.dfy`: module `TitleInspector`, the inspector as a class.
    It edits the `fields` map of a `SchemaNode` object in place.

Behaviour worth knowing:

- A callback without an identifier gets `""`. It is excluded only because `""` is normally not listed. If `""` is listed, such an endpoint passes the veto.
- The identifier uses the class's `__name__`, not its `__qualname__`. Two classes with the same name in one module share an identifier, and one allow-list entry admits both.
- `process_result` strips the title of the one node the result resolves to. The host calls the inspector once per field, so the stripping does not recurse.
- `allowed_views = None` (the default) makes `class_name not in allowed_views` raise `TypeError`; the model returns `Failure(TypeError(...))` for it.
- `hasattr` is true for an attribute set to `None`. So `serializer_class = None` and `response_serializer_class = None` take the declared branch, not the host default; the model keeps Python's `None` as the value `NoneRef`.

## Model

| member | source | states |
|---|---|---|
| Generators.HandlerIdentifier | documentation/generators.py:25-30 | the identifier is `""` exactly when the callback lacks `view_class`, its module or its name. Otherwise it is the module, a `'.'` and the class name. |
| Generators.SplitHandlerIdentifier | documentation/generators.py:27 | a class name has no `'.'`. So the identifier splits at its last `'.'` back into the module path and class name it was built from. |
| Generators.HandlerIdentifierInjective | documentation/generators.py:27 | equal identifiers (with dot-free class names) come from equal module and class-name pairs |
| Generators.SameNameSameIdentifier | documentation/generators.py:27 | view classes reporting the same module and `__name__` share an identifier and get the same veto, so the allow-list cannot tell them apart |
| Generators.LastDot | documentation/generators.py:27 | finds the last `'.'` of a string, and finds none when there is no `'.'` (used to read identifiers back) |
| Generators.GetAllowedViews | documentation/generators.py:32-33 | the inherited accessor returns the static `allowed_views` unchanged. An override's result is used as it is. |
| Generators.ShouldIncludeEndpoint | documentation/generators.py:17-23 | a `None` allow-list is a TypeError. An unlisted identifier gives false whatever the host decides. A listed identifier gives the host's decision for the same endpoint. |
| Generators.IncludedIff | documentation/generators.py:19-23 | an endpoint is included iff some list entry equals its identifier exactly and the host includes it |
| Generators.NoIdentityExcluded | documentation/generators.py:26-30 | a callback with no identifier is excluded whenever `""` is not in the allow-list |
| Generators.OverrideIgnoresStatic | documentation/generators.py:19 | with an overridden accessor the static `allowed_views` has no influence on the decision |
| Schema.GuessResponseStatus | documentation/schema.py:11-23 | the guess is 204 exactly for `"delete"`. Every other method string gives 200. |
| Schema.AutoSchema.ResponseStatus | documentation/schema.py:80-84 | a declared `default_http_response_status` wins. Otherwise the status is 204 iff the lower-cased method is `delete`, else 200. |
| Schema.AutoSchema.GetDefaultResponses | documentation/schema.py:72-88 | an empty host map is a KeyError (`popitem`). Otherwise the result has exactly one entry. It holds the body of the host map's last entry, under the key `str(status)` of the effective status, which is in canonical form and reads back as the status. |
| Schema.AutoSchema.GetDefaultResponseSerializer | documentation/schema.py:47-70 | no `response_serializer_class` means the host default. A non-callable `response_structure_method` is an AssertionError naming its type. Otherwise the result is the host's forced instance of what `get_serializer_class` returned, wrapped by the structure method first when one is set. This holds also when the attribute is `None`. |
| Schema.AutoSchema.GetViewSerializer | documentation/schema.py:90-107 | `get_serializer()` wins with whatever it returns. Next comes an instance of `serializer_class`'s class; when that is not a class, calling it is a TypeError. Otherwise the host default. |
| Schema.Instantiate | documentation/schema.py:105 | calling a class gives an instance of it; calling `None` or an instance is a TypeError |
| Schema.NoneSerializerClassFails | documentation/schema.py:103-105 | `serializer_class = None` without `get_serializer()` raises TypeError instead of falling back to the host default |
| Schema.AutoSchema.GetOperationId | documentation/schema.py:109-110 | the operation id is the path, for any operation keys |
| Schema.DeclaredResponseSerializerInstantiated | documentation/schema.py:59-68 | if the host instantiates classes as documented, declaring `response_serializer_class = S` gives an instance of `S`. This also holds with an identity `response_structure_method`. |
| Schema.StructureMethodNeedsSerializerClass | documentation/schema.py:59-61 | without `response_serializer_class` the structure method is never consulted and nothing fails |
| Schema.ViewSerializerPrecedence | documentation/schema.py:101-105 | with `serializer_class = S` and no `get_serializer()`, the result is an instance of `S`. When `get_serializer()` exists, the result is the same whatever `serializer_class` holds. |
| Schema.DeclaredStatusKey | documentation/schema.py:83-88 | `default_http_response_status = 42` gives the single key `"42"` |
| Schema.UpperCaseDeleteKey | documentation/schema.py:80-81 | the method is lower-cased first, so `DELETE` with no declared status gives the key `"204"` |
| Schema.ResponseKeyDeterminesStatus | documentation/schema.py:88 | two response keys are equal exactly when the statuses are equal |
| Decimal.IntToDecimal | documentation/schema.py:88 | `str()` of an integer is in Python's canonical form: a `'-'` exactly for negative numbers, and no leading `'0'` except in `"0"` |
| Decimal.CanonicalTextUnique | documentation/schema.py:88 | the text of `str()` is the only canonical text that reads back as that integer |
| Decimal.ParseIntToDecimal | documentation/schema.py:88 | `str()` of an integer status parses back to that integer |
| Decimal.IntToDecimalInjective | documentation/schema.py:88 | distinct statuses give distinct keys |
| TitleInspector.WithoutTitle | documentation/schema.py:34 | after `pop('title', None)` there is no `title`, every other key stays, and their values are unchanged |
| TitleInspector.WithoutTitleIdempotent | documentation/schema.py:34 | removing the title twice is the same as removing it once |
| TitleInspector.NoSchemaTitleInspector.Resolve | documentation/schema.py:33 | a schema resolves to itself. A reference resolves to its definition, or to nothing when none exists. |
| TitleInspector.NoSchemaTitleInspector.ProcessResult | documentation/schema.py:30-36 | on success it returns the very result given. The resolved node loses `title` and keeps every other field; nothing else is modified. A reference with no definition is an error. |
| TitleInspector.NoSchemaTitleInspector.ProcessResultTwice | documentation/schema.py:30-36 | processing a result twice leaves the node as processing it once does |

## Left out

- drf_yasg and Django REST Framework internals are not modelled. The model takes as given values: the `super()` results, `get_serializer_class`, `force_serializer_instance`, the value `call_view_method` returns, and `openapi.resolve_ref`'s lookup table. `get_serializer_class` and `force_serializer_instance` are total functions here, so an exception they raise is not modelled.
- The field inspector chain (`field_inspectors`, `swagger_settings.DEFAULT_FIELD_INSPECTORS`) is host configuration and is not modelled.
- URL routing, `as_view()` and request objects are not modelled. A callback is reduced to its `view_class` attributes.
- Building and rendering the OpenAPI document is host-side output and is not modelled.
- Generators.GetAllowedViews: an override is represented by the value it returns, so an accessor whose result changes from call to call is not modelled.
- Generators.ShouldIncludeEndpoint: the allow-list is a sequence of strings. A bare string used as `allowed_views`, where Python's `in` would test for a substring, is not modelled.
- Schema.Lower: lower-cases ASCII letters only, not Python's full Unicode `str.lower()`. No non-ASCII letter lower-cases to a letter of `delete`, so the 204 guess is unaffected.
- Schema.AutoSchema.GetDefaultResponseSerializer: the call of `response_structure_method` is modelled as a function of what `get_serializer_class` returned. The bound `self` (the view) that Python passes is left out.
- Schema.AutoSchema.ResponseStatus: a declared `default_http_response_status` is modelled as an integer. Python's `str()` of a non-integer value is not modelled.
- Schema.AutoSchema.GetDefaultResponses: the response map is a sequence of key–body pairs, and bodies are opaque. The destructive `popitem` on the host's map is not modelled, because the host map is discarded afterwards.
- TitleInspector.NoSchemaTitleInspector.ProcessResult: for a reference with no definition, the model returns an error. The exception the host would actually raise is not modelled. Field values are kept as text, and the insertion order of the field dictionary is not modelled.
- TitleInspector.NoSchemaTitleInspector.ProcessResult: the unused parameters `method_name`, `obj` and `**kwargs` are not modelled.
