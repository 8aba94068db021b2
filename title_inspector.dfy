/** `NoSchemaTitleInspector` of documentation/schema.py: a field inspector
    that removes `title` from the schema node a result stands for, in place. */
module TitleInspector {
  import opened Wrappers

  /** A drf_yasg `Schema` object: a dictionary of fields that the inspector
      edits in place.  Field values are kept as their text. */
  class SchemaNode {
    var fields: map<string, string>

    constructor (fields: map<string, string>)
      ensures this.fields == fields
    {
      this.fields := fields;
    }
  }

  /** What a field inspector may be handed: a `Schema`, a `SchemaRef` naming
      an entry of the definitions, or anything else (a `Parameter`, `None`, ...). */
  datatype FieldResult =
    | SchemaResult(node: SchemaNode)
    | RefResult(refName: string)
    | OtherResult(kind: string)

  /** A `SchemaRef` whose name has no definition. */
  datatype Error = UnresolvedReference(refName: string)

  /** The field map after `pop('title', None)`. */
  function WithoutTitle(fields: map<string, string>): (r: map<string, string>)
    ensures "title" !in r
    ensures r.Keys == fields.Keys - {"title"}
    ensures forall k :: k in r ==> r[k] == fields[k]
  {
    fields - {"title"}
  }

  /** Removing the title a second time changes nothing. */
  lemma WithoutTitleIdempotent(fields: map<string, string>)
    ensures WithoutTitle(WithoutTitle(fields)) == WithoutTitle(fields)
  {
  }

  class NoSchemaTitleInspector {
    /** The definitions a `SchemaRef` is resolved against (`self.components`). */
    const components: map<string, SchemaNode>

    constructor (components: map<string, SchemaNode>)
      ensures this.components == components
    {
      this.components := components;
    }

    /** `openapi.resolve_ref`: a schema is itself, a reference is looked up
        among the definitions. */
    function Resolve(result: FieldResult): (n: Option<SchemaNode>)
      requires !result.OtherResult?
      ensures result.SchemaResult? ==> n == Some(result.node)
      ensures result.RefResult? ==> (n.Some? <==> result.refName in components)
      ensures result.RefResult? && n.Some? ==> n.value == components[result.refName]
    {
      match result
      case SchemaResult(node) => Some(node)
      case RefResult(name) => if name in components then Some(components[name]) else None
    }

    /** The node `process_result` edits for `result`, if any. */
    function Touched(result: FieldResult): set<SchemaNode> {
      if result.OtherResult? then {}
      else match Resolve(result)
        case Some(n) => {n}
        case None => {}
    }

    /** `process_result`: strip `title` from the resolved node, keep every other
        field, and hand back the very result given. */
    method ProcessResult(result: FieldResult) returns (r: Result<FieldResult, Error>)
      modifies Touched(result)
      ensures r.Failure? <==> result.RefResult? && result.refName !in components
      ensures r.Success? ==> r.value == result
      ensures forall n :: n in Touched(result) ==> n.fields == WithoutTitle(old(n.fields))
    {
      if result.OtherResult? {
        return Success(result);
      }
      var schema := Resolve(result);
      if schema.None? {
        return Failure(UnresolvedReference(result.refName));
      }
      var node := schema.value;
      node.fields := node.fields - {"title"};
      return Success(result);
    }

    /** Processing a result twice leaves the node as processing it once does. */
    method ProcessResultTwice(result: FieldResult) returns (r: Result<FieldResult, Error>)
      modifies Touched(result)
      ensures r.Success? ==> r.value == result
      ensures forall n :: n in Touched(result) ==> n.fields == WithoutTitle(old(n.fields))
    {
      r := ProcessResult(result);
      if r.Success? {
        r := ProcessResult(result);
        forall n | n in Touched(result) ensures n.fields == WithoutTitle(old(n.fields)) {
          WithoutTitleIdempotent(old(n.fields));
        }
      }
    }
  }
}
