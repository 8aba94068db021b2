/** The pure parts of the schema customiser in documentation/schema.py:
    `guess_response_status` and the overrides of `ElexApisAutoSchema`.
    What the host generator (drf_yasg) would compute is carried in a `Host`
    record: the values its `super()` methods return and the two utility
    functions `get_serializer_class` and `force_serializer_instance`,
    left uninterpreted. */
module Schema {
  import opened Wrappers
  import Decimal

  /** Status constants, section 15.3.1 and section 15.3.5 of RFC 9110. */
  const HTTP_200_OK := 200
  const HTTP_204_NO_CONTENT := 204

  /** `guess_response_status`: 204 for `delete`, 200 for everything else
      (`post` included, by a branch of its own). */
  function GuessResponseStatus(httpMethod: string): (status: int)
    ensures status == HTTP_204_NO_CONTENT <==> httpMethod == "delete"
    ensures status != HTTP_204_NO_CONTENT ==> status == HTTP_200_OK
  {
    if httpMethod == "post" then HTTP_200_OK
    else if httpMethod == "delete" then HTTP_204_NO_CONTENT
    else HTTP_200_OK
  }

  /** `str.lower()` on the ASCII letters. */
  function LowerChar(c: char): char {
    if 'A' <= c <= 'Z' then (c as int - 'A' as int + 'a' as int) as char else c
  }

  function Lower(s: string): (r: string)
    ensures |r| == |s|
    ensures forall i :: 0 <= i < |s| ==> r[i] == LowerChar(s[i])
  {
    seq(|s|, i requires 0 <= i < |s| => LowerChar(s[i]))
  }

  /** A serializer class, known by its `__name__`. */
  datatype SerializerClass = SerializerClass(name: string)

  /** The Python value a view attribute holds or a host call returns: a
      serializer class, an instance of one, or `None`. */
  datatype SerializerRef =
    | ClassRef(cls: SerializerClass)
    | InstanceRef(instanceOf: SerializerClass)
    | NoneRef

  /** The view's `response_structure_method`: a callable applied to what
      `get_serializer_class` returned, or some value that is not callable. */
  datatype StructureMethod =
    | CallableMethod(wrap: SerializerRef -> SerializerRef)
    | NotCallable(typeName: string)

  /** The optional attributes of a view that the customiser probes with
      `hasattr`.  `None` (of `Option`) means the attribute is absent; an
      attribute set to Python's `None` is `Some(NoneRef)`.  `getSerializer` is
      present when the view has a `get_serializer` method and holds what
      `call_view_method(view, 'get_serializer')` returns, `NoneRef` included. */
  datatype View = View(
    responseSerializerClass: Option<SerializerRef>,
    responseStructureMethod: Option<StructureMethod>,
    serializerClass: Option<SerializerRef>,
    defaultHttpResponseStatus: Option<int>,
    getSerializer: Option<SerializerRef>)

  /** What the host generator contributes to one endpoint. */
  datatype Host<Body> = Host(
    defaultResponses: seq<(string, Body)>,
    defaultResponseSerializer: SerializerRef,
    defaultViewSerializer: SerializerRef,
    serializerClassOf: SerializerRef -> SerializerRef,
    forceSerializerInstance: SerializerRef -> SerializerRef)

  /** The host utilities behave as drf_yasg documents them: the class of a
      class is itself, and forcing a class gives an instance of it. */
  ghost predicate HostInstantiates<Body>(host: Host<Body>) {
    forall c: SerializerClass ::
      host.serializerClassOf(ClassRef(c)) == ClassRef(c) && host.forceSerializerInstance(ClassRef(c)) == InstanceRef(c)
  }

  datatype Error = KeyError(message: string) | AssertionError(message: string) | TypeError(message: string)

  /** Calling a value, as `serializer()` does: a class gives an instance of
      itself; an instance of a serializer or `None` is not callable. */
  function Instantiate(v: SerializerRef): (r: Result<SerializerRef, Error>)
    ensures r.Success? <==> v.ClassRef?
    ensures r.Success? ==> r.value == InstanceRef(v.cls)
    ensures v.NoneRef? ==> r == Failure(TypeError("'NoneType' object is not callable"))
  {
    match v
    case ClassRef(c) => Success(InstanceRef(c))
    case InstanceRef(c) => Failure(TypeError("'" + c.name + "' object is not callable"))
    case NoneRef => Failure(TypeError("'NoneType' object is not callable"))
  }

  const EmptyDict := "dictionary is empty"
  const NotCallablePrefix := "response_structure_method expects a callable, not "

  /** `ElexApisAutoSchema` for one view, path and HTTP method. */
  datatype AutoSchema<Body> = AutoSchema(view: View, path: string, httpMethod: string, host: Host<Body>)
  {
    /** `get_default_response_serializer`. */
    function GetDefaultResponseSerializer(): (r: Result<SerializerRef, Error>)
      ensures view.responseSerializerClass.None? ==> r == Success(host.defaultResponseSerializer)
      ensures r.Failure? <==> view.responseSerializerClass.Some? && view.responseStructureMethod.Some?
                              && view.responseStructureMethod.value.NotCallable?
      ensures r.Failure? ==> r.error == AssertionError(NotCallablePrefix + view.responseStructureMethod.value.typeName)
      ensures r.Success? && view.responseSerializerClass.Some? ==>
        var cls := host.serializerClassOf(view.responseSerializerClass.value);
        r.value == host.forceSerializerInstance(
          if view.responseStructureMethod.Some? then view.responseStructureMethod.value.wrap(cls) else cls)
    {
      match view.responseSerializerClass
      case None => Success(host.defaultResponseSerializer)
      case Some(declared) =>
        var serializerClass := host.serializerClassOf(declared);
        match view.responseStructureMethod
        case None => Success(host.forceSerializerInstance(serializerClass))
        case Some(NotCallable(t)) => Failure(AssertionError(NotCallablePrefix + t))
        case Some(CallableMethod(wrap)) => Success(host.forceSerializerInstance(wrap(serializerClass)))
    }

    /** The status `get_default_responses` documents: the view's
        `default_http_response_status` if it has one, else the guess for the
        lower-cased method. */
    function ResponseStatus(): (status: int)
      ensures view.defaultHttpResponseStatus.Some? ==> status == view.defaultHttpResponseStatus.value
      ensures view.defaultHttpResponseStatus.None? ==>
        (status == HTTP_204_NO_CONTENT <==> Lower(httpMethod) == "delete")
      ensures view.defaultHttpResponseStatus.None? ==> status in {HTTP_200_OK, HTTP_204_NO_CONTENT}
    {
      var guessed := GuessResponseStatus(Lower(httpMethod));
      if view.defaultHttpResponseStatus.Some? then view.defaultHttpResponseStatus.value else guessed
    }

    /** `get_default_responses`: the host's response map collapsed to one
        entry holding the body of its last entry, keyed by the decimal text of
        the status.  `popitem` on an empty map raises KeyError. */
    function GetDefaultResponses(): (r: Result<seq<(string, Body)>, Error>)
      ensures r.Failure? <==> |host.defaultResponses| == 0
      ensures r.Failure? ==> r.error == KeyError(EmptyDict)
      ensures r.Success? ==>
        && |r.value| == 1
        && r.value[0].1 == host.defaultResponses[|host.defaultResponses| - 1].1
        && r.value[0].0 == Decimal.IntToDecimal(ResponseStatus())
        && Decimal.Canonical(r.value[0].0)
        && Decimal.ParseDecimal(r.value[0].0) == Some(ResponseStatus())
    {
      var status := ResponseStatus();
      if |host.defaultResponses| == 0 then Failure(KeyError(EmptyDict))
      else
        var parts := host.defaultResponses[|host.defaultResponses| - 1];
        Decimal.ParseIntToDecimal(status);
        Success([(Decimal.IntToDecimal(status), parts.1)])
    }

    /** `get_view_serializer`: `get_serializer()` first, then an instance of
        `serializer_class`, then the host's default. */
    function GetViewSerializer(): (r: Result<SerializerRef, Error>)
      ensures view.getSerializer.Some? ==> r == Success(view.getSerializer.value)
      ensures view.getSerializer.None? && view.serializerClass.Some? ==>
        var cls := host.serializerClassOf(view.serializerClass.value);
        && (r.Success? <==> cls.ClassRef?)
        && (r.Success? ==> r.value == InstanceRef(cls.cls))
        && (r.Failure? ==> r.error.TypeError?)
      ensures view.getSerializer.None? && view.serializerClass.None? ==> r == Success(host.defaultViewSerializer)
    {
      if view.getSerializer.Some? then Success(view.getSerializer.value)
      else if view.serializerClass.Some? then
        var serializer := host.serializerClassOf(view.serializerClass.value);
        Instantiate(serializer)
      else Success(host.defaultViewSerializer)
    }

    /** `get_operation_id`: the path, whatever the operation keys. */
    function GetOperationId(operationKeys: seq<string>): (id: string)
      ensures id == path
    {
      path
    }
  }

  /** A declared `response_serializer_class` yields an instance of that class,
      also when a `response_structure_method` that returns its argument
      unchanged is declared beside it. */
  lemma DeclaredResponseSerializerInstantiated<Body>(s: AutoSchema<Body>, c: SerializerClass)
    requires HostInstantiates(s.host)
    requires s.view.responseSerializerClass == Some(ClassRef(c))
    requires s.view.responseStructureMethod.None?
          || (s.view.responseStructureMethod.value.CallableMethod? && s.view.responseStructureMethod.value.wrap(ClassRef(c)) == ClassRef(c))
    ensures s.GetDefaultResponseSerializer() == Success(InstanceRef(c))
  {
  }

  /** Without a `response_serializer_class` the `response_structure_method`
      is never consulted, callable or not. */
  lemma StructureMethodNeedsSerializerClass<Body>(s: AutoSchema<Body>, m: Option<StructureMethod>)
    requires s.view.responseSerializerClass.None?
    ensures s.GetDefaultResponseSerializer()
         == AutoSchema(s.view.(responseStructureMethod := m), s.path, s.httpMethod, s.host).GetDefaultResponseSerializer()
    ensures s.GetDefaultResponseSerializer().Success?
  {
  }

  /** A view with `serializer_class` and no `get_serializer()` gets an instance
      of that class; `get_serializer()` wins whenever it exists. */
  lemma ViewSerializerPrecedence<Body>(s: AutoSchema<Body>, c: SerializerClass, other: Option<SerializerRef>)
    requires HostInstantiates(s.host)
    requires s.view.serializerClass == Some(ClassRef(c))
    ensures s.view.getSerializer.None? ==> s.GetViewSerializer() == Success(InstanceRef(c))
    ensures s.view.getSerializer.Some? ==>
      s.GetViewSerializer() == AutoSchema(s.view.(serializerClass := other), s.path, s.httpMethod, s.host).GetViewSerializer()
  {
  }

  /** `serializer_class = None` is present to `hasattr`, so it is not the host
      default: when `get_serializer_class` passes `None` through, calling it
      raises TypeError. */
  lemma NoneSerializerClassFails<Body>(s: AutoSchema<Body>)
    requires s.view.getSerializer.None? && s.view.serializerClass == Some(NoneRef)
    requires s.host.serializerClassOf(NoneRef) == NoneRef
    ensures s.GetViewSerializer() == Failure(TypeError("'NoneType' object is not callable"))
  {
  }

  /** A view declaring `default_http_response_status = 42` gets the single key
      "42", whatever the method. */
  lemma DeclaredStatusKey<Body>(s: AutoSchema<Body>)
    requires s.view.defaultHttpResponseStatus == Some(42)
    requires |s.host.defaultResponses| > 0
    ensures s.GetDefaultResponses().Success?
    ensures s.GetDefaultResponses().value[0].0 == "42"
  {
  }

  /** The method is lower-cased before guessing: `DELETE` without a declared
      status gets the key "204". */
  lemma UpperCaseDeleteKey<Body>(s: AutoSchema<Body>)
    requires s.httpMethod == "DELETE"
    requires s.view.defaultHttpResponseStatus.None?
    requires |s.host.defaultResponses| > 0
    ensures s.GetDefaultResponses().Success?
    ensures s.GetDefaultResponses().value[0].0 == "204"
  {
  }

  /** The response keys of two views differ exactly when their statuses do. */
  lemma ResponseKeyDeterminesStatus<Body>(s: AutoSchema<Body>, t: AutoSchema<Body>)
    requires s.GetDefaultResponses().Success? && t.GetDefaultResponses().Success?
    ensures s.GetDefaultResponses().value[0].0 == t.GetDefaultResponses().value[0].0 <==> s.ResponseStatus() == t.ResponseStatus()
  {
  }
}
