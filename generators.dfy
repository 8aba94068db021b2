/** The allow-list endpoint filter: `WhiteListedViewsEndpointEnumerator`
    of documentation/generators.py.  The host enumerator's own inclusion rule
    (`super().should_include_endpoint`) is a predicate passed in by the caller. */
module Generators {
  import opened Wrappers

  /** The two attributes of `callback.view_class` the identifier reads;
      an attribute the class lacks is `None`. */
  datatype ViewClass = ViewClass(moduleName: Option<string>, className: Option<string>)

  /** A URL callback; `viewClass` is `None` when the callback has no `view_class`
      (a plain function view, say). */
  datatype Callback = Callback(viewClass: Option<ViewClass>)

  /** The arguments the host passes to `should_include_endpoint`. */
  datatype Endpoint = Endpoint(
    path: string,
    callback: Callback,
    appName: string,
    namespace: string,
    urlName: Option<string>)

  /** `get_allowed_views` as a subclass sees it: the inherited accessor, or an
      override together with the value it returns. */
  datatype Accessor = InheritedAccessor | OverriddenAccessor(returned: Option<seq<string>>)

  /** A configured enumerator: the class attribute `allowed_views` (default
      `None`) and the accessor in force. */
  datatype Enumerator = Enumerator(allowedViews: Option<seq<string>>, accessor: Accessor)

  /** The base class as declared: `allowed_views = None`, accessor not overridden. */
  const BaseEnumerator := Enumerator(None, InheritedAccessor)

  /** `class_name not in None` raises TypeError. */
  datatype Error = TypeError(message: string)

  const NotIterable := "argument of type 'NoneType' is not iterable"

  /** True when the callback carries everything `'{}.{}'.format(...)` reads. */
  predicate HasIdentity(cb: Callback) {
    cb.viewClass.Some? && cb.viewClass.value.moduleName.Some? && cb.viewClass.value.className.Some?
  }

  /** `_gen_class_name`: `"<module>.<ClassName>"` of the view class, or `""`
      when an AttributeError is raised while reading it. */
  function HandlerIdentifier(cb: Callback): (id: string)
    ensures id == "" <==> !HasIdentity(cb)
    ensures HasIdentity(cb) ==>
      && |id| == |cb.viewClass.value.moduleName.value| + 1 + |cb.viewClass.value.className.value|
      && id[..|cb.viewClass.value.moduleName.value|] == cb.viewClass.value.moduleName.value
      && id[|cb.viewClass.value.moduleName.value|] == '.'
      && id[|cb.viewClass.value.moduleName.value| + 1..] == cb.viewClass.value.className.value
  {
    match cb.viewClass
    case Some(ViewClass(Some(m), Some(n))) => m + "." + n
    case _ => ""
  }

  /** `get_allowed_views`: the class attribute unless the accessor is overridden. */
  function GetAllowedViews(e: Enumerator): (views: Option<seq<string>>)
    ensures e.accessor.InheritedAccessor? ==> views == e.allowedViews
    ensures e.accessor.OverriddenAccessor? ==> views == e.accessor.returned
  {
    match e.accessor
    case InheritedAccessor => e.allowedViews
    case OverriddenAccessor(v) => v
  }

  /** `should_include_endpoint`: an allow-list veto in front of the host's rule. */
  function ShouldIncludeEndpoint(e: Enumerator, ep: Endpoint, hostIncludes: Endpoint -> bool): (r: Result<bool, Error>)
    ensures r.Failure? <==> GetAllowedViews(e).None?
    ensures r.Success? && HandlerIdentifier(ep.callback) !in GetAllowedViews(e).value ==> !r.value
    ensures r.Success? && HandlerIdentifier(ep.callback) in GetAllowedViews(e).value ==> r.value == hostIncludes(ep)
  {
    var className := HandlerIdentifier(ep.callback);
    var allowedViews := GetAllowedViews(e);
    if allowedViews.None? then Failure(TypeError(NotIterable))
    else if className !in allowedViews.value then Success(false)
    else Success(hostIncludes(ep))
  }

  /** An endpoint is included exactly when some entry of the allow-list equals
      its identifier character for character and the host includes it too. */
  lemma IncludedIff(e: Enumerator, ep: Endpoint, hostIncludes: Endpoint -> bool)
    requires GetAllowedViews(e).Some?
    ensures ShouldIncludeEndpoint(e, ep, hostIncludes) == Success(true) <==>
      && (exists i :: 0 <= i < |GetAllowedViews(e).value| && GetAllowedViews(e).value[i] == HandlerIdentifier(ep.callback))
      && hostIncludes(ep)
  {
  }

  /** A callback without a view class, module or name is dropped unless `""`
      itself is listed. */
  lemma NoIdentityExcluded(e: Enumerator, ep: Endpoint, hostIncludes: Endpoint -> bool)
    requires !HasIdentity(ep.callback)
    requires GetAllowedViews(e).Some? && "" !in GetAllowedViews(e).value
    ensures ShouldIncludeEndpoint(e, ep, hostIncludes) == Success(false)
  {
  }

  /** Overriding the accessor decides the filter alone: the class attribute no
      longer matters, and it is left as it was. */
  lemma OverrideIgnoresStatic(staticA: Option<seq<string>>, staticB: Option<seq<string>>, v: Option<seq<string>>,
                              ep: Endpoint, hostIncludes: Endpoint -> bool)
    ensures ShouldIncludeEndpoint(Enumerator(staticA, OverriddenAccessor(v)), ep, hostIncludes)
         == ShouldIncludeEndpoint(Enumerator(staticB, OverriddenAccessor(v)), ep, hostIncludes)
  {
  }

  /** Index of the last `'.'` in `s`, if any. */
  function LastDot(s: string): (r: Option<nat>)
    ensures r.Some? ==> r.value < |s| && s[r.value] == '.' && '.' !in s[r.value + 1..]
    ensures r.None? ==> '.' !in s
    decreases |s|
  {
    if |s| == 0 then None
    else if s[|s| - 1] == '.' then Some(|s| - 1)
    else
      var r := LastDot(s[..|s| - 1]);
      assert s == s[..|s| - 1] + [s[|s| - 1]];
      r
  }

  /** Reads an allow-list entry back as (module path, class name): the class
      name is what follows the last `'.'`. */
  function SplitIdentifier(id: string): Option<(string, string)> {
    match LastDot(id)
    case None => None
    case Some(k) => Some((id[..k], id[k + 1..]))
  }

  /** A Python class name has no `'.'`, so the identifier splits back into the
      module path and class name it was built from. */
  lemma SplitHandlerIdentifier(cb: Callback)
    requires HasIdentity(cb)
    requires '.' !in cb.viewClass.value.className.value
    ensures SplitIdentifier(HandlerIdentifier(cb)) == Some((cb.viewClass.value.moduleName.value, cb.viewClass.value.className.value))
  {
  }

  /** Equal identifiers come from equal (module path, class name) pairs.  The
      identifier reads `__name__`, not `__qualname__`, so two classes with the
      same name in one module (nested classes, or classes local to different
      functions) share an identifier, and an allow-list entry admits them all;
      `SameNameSameIdentifier` states that collision. */
  lemma HandlerIdentifierInjective(a: Callback, b: Callback)
    requires HasIdentity(a) && HasIdentity(b)
    requires '.' !in a.viewClass.value.className.value && '.' !in b.viewClass.value.className.value
    requires HandlerIdentifier(a) == HandlerIdentifier(b)
    ensures a.viewClass.value == b.viewClass.value
  {
  }

  /** Two callbacks whose view classes report the same module and name get the
      same identifier, whichever classes they are, and so the same veto: the
      allow-list cannot tell them apart. */
  lemma SameNameSameIdentifier(e: Enumerator, a: Endpoint, b: Endpoint, hostIncludes: Endpoint -> bool)
    requires a.callback.viewClass.Some? && a.callback.viewClass == b.callback.viewClass
    ensures HandlerIdentifier(a.callback) == HandlerIdentifier(b.callback)
    ensures hostIncludes(a) == hostIncludes(b) ==>
      ShouldIncludeEndpoint(e, a, hostIncludes) == ShouldIncludeEndpoint(e, b, hostIncludes)
  {
  }
}
