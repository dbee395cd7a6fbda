/**
  The post-deploy reconciliation `ensureAPIKeys`: find the deployed REST API,
  find the usage plan named by `custom.usagePlan`, and ask API Gateway to add
  the API's stage to that plan when it is not yet there.

  The AWS replies are inputs and the requests the plugin sends are the
  output, in the order it sends them.
*/
module UsagePlans {
  import opened Wrappers
  import opened CfnTemplate

  const DefaultUsagePlan := "General Usage Plan"
  const RestApiLogicalId := "ApiGatewayRestApi"

  /** A JavaScript value that is a string, `null` or `undefined`. */
  datatype JsValue = Str(s: string) | Null | Undefined

  /** The text a template literal `${v}` interpolates for `v`. */
  function Text(v: JsValue): string
  {
    match v
    case Str(s) => s
    case Null => "null"
    case Undefined => "undefined"
  }

  /** `v === w` for a value read from AWS (always a string) against a JavaScript value. */
  predicate StrictEquals(s: string, v: JsValue)
  {
    v == Str(s)
  }

  /** `getApiGatewayRestApi()`'s result: the logical id and properties of the REST API. */
  datatype RestApi = RestApi(name: string, properties: Properties)

  datatype ApiStage = ApiStage(apiId: string, stage: string)

  /** An item of `getUsagePlans`; `name` or `apiStages` may be absent. */
  datatype UsagePlan = UsagePlan(id: string, name: Option<string>, apiStages: Option<seq<ApiStage>>)

  /**
    What `getUsagePlans` settles with: a rejected request, or a result whose
    `items` may be missing (a falsy result is a result without `items`).
  */
  datatype PlansReply = RequestFailed | Plans(items: Option<seq<UsagePlan>>)

  /** What `getUsagePlanId` resolves to when the stage must be added. */
  datatype Ids = Ids(apiId: JsValue, planId: string)

  datatype PatchOperation = PatchOperation(from: string, op: string, path: string, value: string)

  /** The requests the plugin sends through `provider.request`. */
  datatype Request =
    | DescribeStackResources(stackName: string, logicalResourceId: string)
    | GetUsagePlans
    | UpdateUsagePlan(usagePlanId: string, patchOperations: seq<PatchOperation>)

  ghost predicate HasRestApi(resources: Resources)
  {
    exists name :: name in resources && IsRestApi(resources[name])
  }

  /**
    `getApiGatewayRestApi()`: some `AWS::ApiGateway::RestApi` entry of the
    template, or `None` (`null`) when there is none.
  */
  method GetApiGatewayRestApi(resources: Resources) returns (api: Option<RestApi>)
    ensures api.Some? ==> api.value.name in resources && IsRestApi(resources[api.value.name])
                          && api.value.properties == resources[api.value.name].Properties
    ensures api.None? <==> !HasRestApi(resources)
  {
    var todo := resources.Keys;
    while todo != {}
      invariant todo <= resources.Keys
      invariant forall name :: name in resources && name !in todo ==> !IsRestApi(resources[name])
      decreases todo
    {
      var name :| name in todo;
      var r := resources[name];
      if IsRestApi(r) {
        return Some(RestApi(name, r.Properties));
      }
      todo := todo - {name};
    }
    return None;
  }

  /** `getUsagePlanName()`: `custom.usagePlan` when truthy, else the default plan name. */
  function GetUsagePlanName(custom: Option<string>): (name: string)
    ensures name != ""
    ensures custom.Some? && custom.value != "" ==> name == custom.value
    ensures custom.None? || custom.value == "" ==> name == DefaultUsagePlan
  {
    if custom.Some? && custom.value != "" then custom.value else DefaultUsagePlan
  }

  /** Plan `i` is the first one of `items` called `name`. */
  predicate FirstNamed(items: seq<UsagePlan>, i: nat, name: string)
  {
    i < |items| && items[i].name == Some(name)
    && forall j :: 0 <= j < i ==> items[j].name != Some(name)
  }

  /** `items.find((i) => i.name === usagePlanName)`, as the index of the plan found. */
  function FindPlan(items: seq<UsagePlan>, name: string): (r: Option<nat>)
    ensures r.Some? ==> FirstNamed(items, r.value, name)
    ensures r.None? <==> forall j :: 0 <= j < |items| ==> items[j].name != Some(name)
  {
    if items == [] then None
    else if items[0].name == Some(name) then Some(0)
    else
      match FindPlan(items[1..], name)
      case None => None
      case Some(i) => Some(i + 1)
  }

  /** The plan already lists the API's stage. */
  ghost predicate Lists(stages: seq<ApiStage>, apiId: JsValue, stage: JsValue)
  {
    exists s :: s in stages && StrictEquals(s.apiId, apiId) && StrictEquals(s.stage, stage)
  }

  /** `apiStages.some((i) => i.apiId === apiId && i.stage === stage)`. */
  function SomeStage(stages: seq<ApiStage>, apiId: JsValue, stage: JsValue): (b: bool)
    ensures b <==> Lists(stages, apiId, stage)
  {
    if stages == [] then false
    else
      (StrictEquals(stages[0].apiId, apiId) && StrictEquals(stages[0].stage, stage))
      || SomeStage(stages[1..], apiId, stage)
  }

  /**
    `getUsagePlanId(apiId, stage, usagePlanName)`: the ids to patch, or
    `None` when the request failed, there are no items, no plan has the name,
    the plan already lists the stage, or the plan has no `apiStages` (the
    `TypeError` is caught like a failed request).
  */
  function GetUsagePlanId(reply: PlansReply, apiId: JsValue, stage: JsValue, usagePlanName: string): (ids: Option<Ids>)
    ensures reply.RequestFailed? || reply.items.None? ==> ids.None?
    ensures ids.Some? ==> ids.value.apiId == apiId
  {
    if reply.RequestFailed? || reply.items.None? then None
    else
      var items := reply.items.value;
      match FindPlan(items, usagePlanName)
      case None => None
      case Some(i) =>
        if items[i].apiStages.None? then None
        else if SomeStage(items[i].apiStages.value, apiId, stage) then None
        else Some(Ids(apiId, items[i].id))
  }

  /** The value of the patch: `${apiId}:${stageName}`. */
  function StageValue(apiId: JsValue, stage: JsValue): (v: string)
    ensures |v| == |Text(apiId)| + 1 + |Text(stage)|
    ensures v[..|Text(apiId)|] == Text(apiId) && v[|Text(apiId)|] == ':' && v[|Text(apiId)| + 1..] == Text(stage)
  {
    Text(apiId) + ":" + Text(stage)
  }

  /** `setApiKey(ids, stageName, usagePlanName)`: the `updateUsagePlan` request, when there are ids. */
  function SetApiKey(ids: Option<Ids>, stageName: JsValue): (req: Option<Request>)
    ensures req.Some? <==> ids.Some?
    ensures req.Some? ==> req.value.UpdateUsagePlan? && req.value.usagePlanId == ids.value.planId
                          && |req.value.patchOperations| == 1
                          && req.value.patchOperations[0].from == "STRING_VALUE"
                          && req.value.patchOperations[0].op == "add"
                          && req.value.patchOperations[0].path == "/apiStages"
                          && req.value.patchOperations[0].value == StageValue(ids.value.apiId, stageName)
  {
    match ids
    case None => None
    case Some(ids) =>
      Some(UpdateUsagePlan(ids.planId,
        [PatchOperation("STRING_VALUE", "add", "/apiStages", StageValue(ids.apiId, stageName))]))
  }

  /**
    The requests `ensureAPIKeys` sends, given whether the template has a REST
    API, the id the stack lookup produced and the `getUsagePlans` reply.
  */
  function Reconcile(noDeploy: bool, hasApi: bool, stage: JsValue, custom: Option<string>,
                     stackName: string, apiId: JsValue, reply: PlansReply): (r: seq<Request>)
    ensures noDeploy || !hasApi ==> r == []
    ensures !noDeploy && hasApi ==>
              && 2 <= |r| <= 3
              && r[0] == DescribeStackResources(stackName, RestApiLogicalId) && r[1] == GetUsagePlans
              && (|r| == 3 ==> r[2].UpdateUsagePlan?)
  {
    if noDeploy || !hasApi then []
    else
      var ids := GetUsagePlanId(reply, apiId, stage, GetUsagePlanName(custom));
      var update := SetApiKey(ids, stage);
      [DescribeStackResources(stackName, RestApiLogicalId), GetUsagePlans]
      + (if update.Some? then [update.value] else [])
  }

  /**
    `ensureAPIKeys()` with the AWS replies as inputs: `stackName` is the
    provider's name for the stage's stack, `apiId` what `getApiId` resolved
    to and `plansReply` what `getUsagePlans` settled with.
  */
  method EnsureApiKeys(resources: Resources, noDeploy: bool, stage: JsValue, custom: Option<string>,
                       stackName: string, apiId: JsValue, plansReply: PlansReply)
    returns (requests: seq<Request>)
    ensures requests == Reconcile(noDeploy, HasRestApi(resources), stage, custom, stackName, apiId, plansReply)
  {
    if noDeploy {
      return [];
    }
    var api := GetApiGatewayRestApi(resources);
    if api.None? {
      // a worker service: nothing to do
      return [];
    }
    var stageName := stage;
    var usagePlanName := GetUsagePlanName(custom);
    requests := [DescribeStackResources(stackName, RestApiLogicalId), GetUsagePlans];
    var ids := GetUsagePlanId(plansReply, apiId, stageName, usagePlanName);
    var update := SetApiKey(ids, stageName);
    if update.Some? {
      requests := requests + [update.value];
    }
  }

  /** The `updateUsagePlan` requests among `reqs`. */
  function Updates(reqs: seq<Request>): (u: seq<Request>)
    ensures forall r :: r in u ==> r in reqs && r.UpdateUsagePlan?
  {
    if reqs == [] then []
    else (if reqs[0].UpdateUsagePlan? then [reqs[0]] else []) + Updates(reqs[1..])
  }

  /**
    The stage must be added: the plans were listed, the first plan with the
    configured name has an `apiStages` list, and no entry of it has both the
    API's id and the stage.
  */
  ghost predicate MissingAssociation(reply: PlansReply, apiId: JsValue, stage: JsValue, planName: string)
  {
    && reply.Plans? && reply.items.Some?
    && exists i: nat :: FirstNamed(reply.items.value, i, planName)
                && reply.items.value[i].apiStages.Some?
                && !Lists(reply.items.value[i].apiStages.value, apiId, stage)
  }

  lemma FirstNamedUnique(items: seq<UsagePlan>, i: nat, j: nat, name: string)
    requires FirstNamed(items, i, name) && FirstNamed(items, j, name)
    ensures i == j
  {
  }

  /**
    `getUsagePlanId` yields ids exactly when the stage must be added, and
    then they hold the API id it was given and the id of the first plan with
    the configured name.
  */
  lemma GetUsagePlanIdSpec(reply: PlansReply, apiId: JsValue, stage: JsValue, usagePlanName: string)
    ensures var ids := GetUsagePlanId(reply, apiId, stage, usagePlanName);
            && (ids.Some? <==> MissingAssociation(reply, apiId, stage, usagePlanName))
            && (ids.Some? ==> ids.value.apiId == apiId
                              && exists i: nat :: FirstNamed(reply.items.value, i, usagePlanName)
                                                && ids.value.planId == reply.items.value[i].id)
  {
    if reply.Plans? && reply.items.Some? {
      var items := reply.items.value;
      var found := FindPlan(items, usagePlanName);
      if found.Some? {
        assert FirstNamed(items, found.value, usagePlanName);
        forall i: nat | FirstNamed(items, i, usagePlanName)
          ensures i == found.value
        {
          FirstNamedUnique(items, i, found.value, usagePlanName);
        }
      }
    }
  }

  /** With `--noDeploy`, or for a service without a REST API, nothing is sent. */
  lemma NothingForWorkers(noDeploy: bool, hasApi: bool, stage: JsValue, custom: Option<string>,
                          stackName: string, apiId: JsValue, reply: PlansReply)
    requires noDeploy || !hasApi
    ensures Reconcile(noDeploy, hasApi, stage, custom, stackName, apiId, reply) == []
  {
  }

  /**
    `ensureAPIKeys` sends exactly one `updateUsagePlan`, for the first plan
    with the configured name and with the single operation adding
    `<apiId>:<stage>` to `/apiStages`, when it deploys, the template has a REST
    API and that plan does not list the stage yet; otherwise it sends none.
  */
  lemma {:induction false} OneUpdateIffMissing(noDeploy: bool, hasApi: bool, stage: JsValue, custom: Option<string>,
                                               stackName: string, apiId: JsValue, reply: PlansReply)
    ensures var reqs := Reconcile(noDeploy, hasApi, stage, custom, stackName, apiId, reply);
            var planName := GetUsagePlanName(custom);
            && |Updates(reqs)| == (if !noDeploy && hasApi && MissingAssociation(reply, apiId, stage, planName) then 1 else 0)
            && (|Updates(reqs)| == 1 ==>
                  exists i: nat :: FirstNamed(reply.items.value, i, planName)
                           && Updates(reqs)[0] == UpdateUsagePlan(reply.items.value[i].id,
                                [PatchOperation("STRING_VALUE", "add", "/apiStages", StageValue(apiId, stage))]))
  {
    var reqs := Reconcile(noDeploy, hasApi, stage, custom, stackName, apiId, reply);
    var planName := GetUsagePlanName(custom);
    if noDeploy || !hasApi {
      assert Updates(reqs) == [];
    } else {
      var ids := GetUsagePlanId(reply, apiId, stage, planName);
      GetUsagePlanIdSpec(reply, apiId, stage, planName);
      var update := SetApiKey(ids, stage);
      var tail := if update.Some? then [update.value] else [];
      assert reqs == [DescribeStackResources(stackName, RestApiLogicalId), GetUsagePlans] + tail;
      assert Updates(reqs) == Updates(tail) by {
        assert reqs[1..] == [GetUsagePlans] + tail;
        assert reqs[1..][1..] == tail;
      }
      if update.Some? {
        assert Updates(tail) == [update.value] by {
          assert tail[1..] == [];
        }
      }
    }
  }

  /**
    A failed API-id lookup resolves to `null`, and the chain still goes on:
    a plan without the stage is patched with `null:<stage>`.
  */
  lemma FailedLookupStillPatches()
    ensures var plans := Plans(Some([UsagePlan("p1", Some(DefaultUsagePlan), Some([]))]));
            Updates(Reconcile(false, true, Str("dev"), None, "svc-dev", Null, plans))
            == [UpdateUsagePlan("p1", [PatchOperation("STRING_VALUE", "add", "/apiStages", "null:dev")])]
  {
    var items := [UsagePlan("p1", Some(DefaultUsagePlan), Some([]))];
    var plans := Plans(Some(items));
    var update := UpdateUsagePlan("p1", [PatchOperation("STRING_VALUE", "add", "/apiStages", "null:dev")]);
    assert GetUsagePlanName(None) == DefaultUsagePlan;
    assert FindPlan(items, DefaultUsagePlan) == Some(0);
    assert GetUsagePlanId(plans, Null, Str("dev"), DefaultUsagePlan) == Some(Ids(Null, "p1"));
    assert StageValue(Null, Str("dev")) == "null:dev";
    var reqs := [DescribeStackResources("svc-dev", RestApiLogicalId), GetUsagePlans, update];
    assert Reconcile(false, true, Str("dev"), None, "svc-dev", Null, plans) == reqs;
    assert reqs[1..][1..] == [update] && [update][1..] == [];
    assert Updates([update]) == [update];
    assert Updates(reqs[1..]) == Updates([update]);
  }

  /** The text before the first `:` and the text after it. */
  function SplitAtColon(s: string): (parts: (string, string))
    ensures ':' !in parts.0
    ensures ':' in s ==> s == parts.0 + ":" + parts.1
    ensures ':' !in s ==> parts == (s, "")
  {
    if s == [] then ("", "")
    else if s[0] == ':' then ("", s[1..])
    else
      var rest := SplitAtColon(s[1..]);
      assert s == [s[0]] + s[1..];
      ([s[0]] + rest.0, rest.1)
  }

  /**
    The patch value splits back into the API id and the stage at its first
    `:`, as long as the id has no `:` (API Gateway ids are alphanumeric;
    `null` and `undefined` have none either).
  */
  lemma {:induction false} StageValueSplits(apiId: JsValue, stage: JsValue)
    requires ':' !in Text(apiId)
    ensures SplitAtColon(StageValue(apiId, stage)) == (Text(apiId), Text(stage))
  {
    ColonFree(Text(apiId), Text(stage));
  }

  lemma {:induction false} ColonFree(a: string, b: string)
    requires ':' !in a
    ensures SplitAtColon(a + ":" + b) == (a, b)
  {
    if a == [] {
      assert a + ":" + b == [':'] + b;
    } else {
      assert (a + ":" + b)[1..] == a[1..] + ":" + b;
      ColonFree(a[1..], b);
      assert a == [a[0]] + a[1..];
    }
  }
}
