/**
  The compiled CloudFormation template as the plugin sees it: a map from
  logical ids to resources, each a `Type` string and a `Properties` bag. Only
  the properties the plugin reads or writes are modelled; an absent property
  is `None`.
*/
module CfnTemplate {
  import opened Wrappers
  import opened JsObject

  const MethodType := "AWS::ApiGateway::Method"
  const RestApiType := "AWS::ApiGateway::RestApi"

  /** A reference property: `{ "Ref": logicalId }`, or any other intrinsic (e.g. `Fn::GetAtt` of the root resource). */
  datatype IdRef = Ref(logicalId: string) | Intrinsic(function_: string)

  datatype Integration = Integration(
    CacheKeyParameters: Option<seq<string>>,
    CacheNamespace: Option<IdRef>)

  datatype Properties = Properties(
    PathPart: Option<string>,
    ParentId: Option<IdRef>,
    ResourceId: Option<IdRef>,
    RequestParameters: Option<Object<bool>>,
    ApiKeyRequired: Option<bool>,
    Integration: Option<Integration>)

  datatype Node = Node(Type: string, Properties: Properties)

  type Resources = map<string, Node>

  predicate IsMethod(n: Node)
  {
    n.Type == MethodType
  }

  predicate IsRestApi(n: Node)
  {
    n.Type == RestApiType
  }

  /**
    The logical id `x.Ref` names when that is truthy: a reference to the
    empty string is falsy in JavaScript and is not followed.
  */
  function RefOf(id: Option<IdRef>): (r: Option<string>)
    ensures r.Some? <==> id.Some? && id.value.Ref? && id.value.logicalId != ""
    ensures r.Some? ==> id == Some(Ref(r.value))
  {
    match id
    case Some(Ref(x)) => if x != "" then Some(x) else None
    case _ => None
  }
}
