/**
  The compile-time rewrites of the template: `configureCaching` and
  `markMethodsApiKeyRequired`, each visiting every `AWS::ApiGateway::Method`
  entry of `Resources` (`forEachMethod`) and updating it in place.
*/
module Plugin {
  import opened Wrappers
  import opened JsObject
  import opened CfnTemplate
  import opened PathParams
  import opened CacheParams

  /** What `configureCaching` needs of one entry in order not to throw. */
  ghost predicate NodeReady(res: Resources, name: string, events: map<string, HttpEvent>)
    requires name in res
  {
    IsMethod(res[name]) ==>
      && CanGetCacheParameters(res, res[name], Lookup(events, name))
      && (CacheParametersOf(res, res[name], Lookup(events, name)).allNames != [] ==>
            res[name].Properties.Integration.Some?)
  }

  ghost predicate CachingReady(res: Resources, events: map<string, HttpEvent>)
  {
    forall name :: name in res ==> NodeReady(res, name, events)
  }

  /**
    A method with its computed parameters applied: path, then query-string
    entries assigned into `RequestParameters`, the cache key set to
    `allNames` and the cache namespace to the method's own `ResourceId`.
  */
  function WithCaching(n: Node, p: CacheParameters): Node
    requires n.Properties.RequestParameters.Some? && n.Properties.Integration.Some?
  {
    var props := n.Properties;
    n.(Properties := props.(
      RequestParameters := Some(PutAll(PutAll(props.RequestParameters.value, p.path), p.queryString)),
      Integration := Some(props.Integration.value.(
        CacheKeyParameters := Some(p.allNames),
        CacheNamespace := props.ResourceId))))
  }

  /** The entry `name` after `configureCaching`: only methods with cache key names change. */
  ghost function ConfiguredNode(res: Resources, name: string, events: map<string, HttpEvent>): Node
    requires name in res && NodeReady(res, name, events)
  {
    var n := res[name];
    if !IsMethod(n) then n
    else
      var p := CacheParametersOf(res, n, Lookup(events, name));
      if p.allNames == [] then n else WithCaching(n, p)
  }

  ghost function Configured(res: Resources, events: map<string, HttpEvent>): Resources
    requires CachingReady(res, events)
  {
    map name | name in res :: ConfiguredNode(res, name, events)
  }

  /** The entry after `markMethodsApiKeyRequired`: a method without the property gets `true`. */
  function MarkedNode(n: Node): Node
  {
    if IsMethod(n) && n.Properties.ApiKeyRequired.None?
    then n.(Properties := n.Properties.(ApiKeyRequired := Some(true)))
    else n
  }

  function ApiKeysMarked(res: Resources): Resources
  {
    map name | name in res :: MarkedNode(res[name])
  }

  /** Rewriting other methods while iterating leaves every method's parameters as they were. */
  lemma CacheParametersFrame(r1: Resources, r2: Resources, m: Node, ev: Option<HttpEvent>)
    requires SameShapes(r1, r2) && CanGetCacheParameters(r1, m, ev)
    ensures CanGetCacheParameters(r2, m, ev)
    ensures CacheParametersOf(r1, m, ev) == CacheParametersOf(r2, m, ev)
  {
    assert |r1| == |r1.Keys| == |r2.Keys| == |r2|;
    match ResourceRef(m)
    case None =>
    case Some(r) =>
      WalkFrame(r1, r2, r1[r], r2[r], |r1|);
  }

  /** Path keys and query-string keys are never the same key. */
  lemma PathKeysAreNotQueryKeys(res: Resources, n: Node, steps: nat, ev: HttpEvent, k: string)
    requires WalkEnds(res, n, steps)
    requires k in Keys(PathParameters(res, n, steps))
    ensures k !in Keys(QueryStringParameters(ev))
  {
    var c := Chain(res, n, steps);
    var i :| 0 <= i < |c| && SegmentParam(c[i]).Some? && k == PathKey(SegmentParam(c[i]).value);
    if k in Keys(QueryStringParameters(ev)) {
      var name :| name in Keys(ev.querystring.value) && k == QueryKey(name);
      PathAndQueryKeysDiffer(SegmentParam(c[i]).value, name);
    }
  }

  /**
    The two assignment passes into `RequestParameters`: existing keys stay in
    place, path keys get `true`, query-string keys get their value (the later
    pass wins), and every other key keeps its value.
  */
  lemma {:induction false} MergeParameters(rp: Object<bool>, path: Object<bool>, qs: Object<bool>)
    requires forall k :: k in Keys(path) ==> Get(path, k) == Some(true) && k !in Keys(qs)
    requires Valid(path) && Valid(qs)
    ensures Keys(rp) <= Keys(PutAll(PutAll(rp, path), qs))
    ensures forall k :: k in Keys(PutAll(PutAll(rp, path), qs)) <==> k in Keys(rp) || k in Keys(path) || k in Keys(qs)
    ensures forall k :: k in Keys(path) ==> Get(PutAll(PutAll(rp, path), qs), k) == Some(true)
    ensures forall k :: k in Keys(qs) ==> Get(PutAll(PutAll(rp, path), qs), k) == Get(qs, k)
    ensures forall k :: k !in Keys(path) && k !in Keys(qs) ==> Get(PutAll(PutAll(rp, path), qs), k) == Get(rp, k)
    ensures Valid(rp) ==> Valid(PutAll(PutAll(rp, path), qs))
  {
    var mid := PutAll(rp, path);
    var rp' := PutAll(mid, qs);
    PutAllKeys(rp, path);
    PutAllKeys(mid, qs);
    forall k | k in Keys(path)
      ensures Get(rp', k) == Some(true)
    {
      PutAllGet(mid, qs, k);
      PutAllGet(rp, path, k);
    }
    forall k | k in Keys(qs)
      ensures Get(rp', k) == Get(qs, k)
    {
      PutAllGet(mid, qs, k);
    }
    forall k | k !in Keys(path) && k !in Keys(qs)
      ensures Get(rp', k) == Get(rp, k)
    {
      PutAllGet(mid, qs, k);
      PutAllGet(rp, path, k);
    }
  }

  /** The event's `querystring`, when there is one, is an object (its keys are distinct). */
  ghost predicate EventObject(ev: Option<HttpEvent>)
  {
    ev.Some? && ev.value.querystring.Some? ==> Valid(ev.value.querystring.value)
  }

  /**
    When a method has cache key names, `configureCaching` keeps every
    declared request parameter in its place, gives every path key `true`
    and every query-string key its declared value (overwriting a declared
    request parameter on collision), leaves all other keys alone, sets the
    cache key parameters to `allNames` and the cache namespace to the
    method's own resource reference, and changes nothing else in the entry.
  */
  lemma CachingMerge(res: Resources, events: map<string, HttpEvent>, name: string)
    requires CachingReady(res, events) && name in res && IsMethod(res[name])
    requires EventObject(Lookup(events, name))
    requires CacheParametersOf(res, res[name], Lookup(events, name)).allNames != []
    ensures var n, n' := res[name], Configured(res, events)[name];
            var p := CacheParametersOf(res, n, Lookup(events, name));
            var rp := n.Properties.RequestParameters.value;
            && ResourceRef(n).Some?
            && n'.Type == n.Type
            && n'.Properties.(RequestParameters := n.Properties.RequestParameters,
                              Integration := n.Properties.Integration) == n.Properties
            && n'.Properties.Integration == Some(n.Properties.Integration.value.(
                 CacheKeyParameters := Some(p.allNames),
                 CacheNamespace := Some(Ref(ResourceRef(n).value))))
            && n'.Properties.RequestParameters == Some(PutAll(PutAll(rp, p.path), p.queryString))
  {
    assert NodeReady(res, name, events);
  }

  /**
    The request parameters after `configureCaching`, for a method with cache
    key names: every declared key stays in its place, every path key maps to
    `true`, every query-string key to the value its event declares, every
    other key keeps its value, and no key is listed twice.
  */
  lemma CachingRequestParameters(res: Resources, events: map<string, HttpEvent>, name: string)
    requires CachingReady(res, events) && name in res && IsMethod(res[name])
    requires EventObject(Lookup(events, name))
    requires CacheParametersOf(res, res[name], Lookup(events, name)).allNames != []
    ensures var n := res[name];
            var p := CacheParametersOf(res, n, Lookup(events, name));
            var rp := n.Properties.RequestParameters.value;
            var rp' := PutAll(PutAll(rp, p.path), p.queryString);
            && Keys(rp) <= Keys(rp')
            && (forall k :: k in Keys(rp') <==> k in Keys(rp) || k in Keys(p.path) || k in Keys(p.queryString))
            && (forall k :: k in Keys(p.path) ==> Get(rp', k) == Some(true))
            && (forall k :: k in Keys(p.queryString) ==> Get(rp', k) == Get(p.queryString, k))
            && (forall k :: k !in Keys(p.path) && k !in Keys(p.queryString) ==> Get(rp', k) == Get(rp, k))
            && (Valid(rp) ==> Valid(rp'))
  {
    var n := res[name];
    var ev := Lookup(events, name);
    assert NodeReady(res, name, events);
    var p := CacheParametersOf(res, n, ev);
    var r := ResourceRef(n).value;
    forall k | k in Keys(p.path)
      ensures Get(p.path, k) == Some(true) && k !in Keys(p.queryString)
    {
      PathKeysAreNotQueryKeys(res, res[r], |res|, ev.value, k);
    }
    MergeParameters(n.Properties.RequestParameters.value, p.path, p.queryString);
  }

  /** Non-method entries, and methods without cache key names, come out of `configureCaching` unchanged. */
  lemma CachingFrame(res: Resources, events: map<string, HttpEvent>, name: string)
    requires CachingReady(res, events) && name in res && NodeReady(res, name, events)
    requires !IsMethod(res[name]) || CacheParametersOf(res, res[name], Lookup(events, name)).allNames == []
    ensures name in Configured(res, events) && Configured(res, events)[name] == res[name]
  {
  }

  /**
    Two configured methods share a cache namespace exactly when they have the
    same `ResourceId`: sibling methods share it, methods on different
    resources do not.
  */
  lemma NamespaceFollowsResource(res: Resources, events: map<string, HttpEvent>, a: string, b: string)
    requires CachingReady(res, events) && a in res && b in res
    requires NodeReady(res, a, events) && NodeReady(res, b, events)
    requires IsMethod(res[a]) && CacheParametersOf(res, res[a], Lookup(events, a)).allNames != []
    requires IsMethod(res[b]) && CacheParametersOf(res, res[b], Lookup(events, b)).allNames != []
    ensures Configured(res, events)[a].Properties.Integration.value.CacheNamespace
            == Configured(res, events)[b].Properties.Integration.value.CacheNamespace
            <==> res[a].Properties.ResourceId == res[b].Properties.ResourceId
  {
    assert Configured(res, events)[a] == WithCaching(res[a], CacheParametersOf(res, res[a], Lookup(events, a)));
    assert Configured(res, events)[b] == WithCaching(res[b], CacheParametersOf(res, res[b], Lookup(events, b)));
  }

  /**
    After `markMethodsApiKeyRequired` every method has `ApiKeyRequired`: an
    existing value, `false` included, is kept, a missing one becomes `true`;
    nothing else in any entry changes and non-method entries are untouched.
  */
  lemma ApiKeyFlag(res: Resources, name: string)
    requires name in res
    ensures name in ApiKeysMarked(res)
    ensures var n, n' := res[name], ApiKeysMarked(res)[name];
            && n'.Type == n.Type
            && n'.Properties.(ApiKeyRequired := n.Properties.ApiKeyRequired) == n.Properties
            && (IsMethod(n) ==> n'.Properties.ApiKeyRequired.Some?)
            && (n.Properties.ApiKeyRequired.Some? ==> n' == n)
            && (IsMethod(n) && n.Properties.ApiKeyRequired.None? ==> n'.Properties.ApiKeyRequired == Some(true))
            && (!IsMethod(n) ==> n' == n)
  {
  }

  /** Marking twice is marking once. */
  lemma ApiKeysMarkedIdempotent(res: Resources)
    ensures ApiKeysMarked(ApiKeysMarked(res)) == ApiKeysMarked(res)
  {
    var once := ApiKeysMarked(res);
    assert forall name :: name in once ==> MarkedNode(once[name]) == once[name];
  }

  /** The body of `configureCaching`'s callback: the method's entry after the rewrite. */
  method ConfigureMethod(cfnResources: Resources, cfnMethod: Node, slsEvent: Option<HttpEvent>) returns (result: Node)
    requires CanGetCacheParameters(cfnResources, cfnMethod, slsEvent)
    requires CacheParametersOf(cfnResources, cfnMethod, slsEvent).allNames != [] ==>
               cfnMethod.Properties.Integration.Some?
    ensures var p := CacheParametersOf(cfnResources, cfnMethod, slsEvent);
            result == if p.allNames == [] then cfnMethod else WithCaching(cfnMethod, p)
  {
    result := cfnMethod;
    var parameters := GetCacheParameters(cfnResources, cfnMethod, slsEvent);
    if |parameters.allNames| > 0 {
      var requestParameters := CopyProperties(cfnMethod.Properties.RequestParameters.value, parameters.path);
      requestParameters := CopyProperties(requestParameters, parameters.queryString);
      var integration := cfnMethod.Properties.Integration.value.(
        CacheKeyParameters := Some(parameters.allNames),
        CacheNamespace := cfnMethod.Properties.ResourceId);
      result := cfnMethod.(Properties := cfnMethod.Properties.(
        RequestParameters := Some(requestParameters),
        Integration := Some(integration)));
    }
  }

  /**
    The state of `configureCaching` part-way through: the entries still to
    visit are as they were, the visited ones are configured, and the walk
    fields of every entry are as they were.
  */
  ghost predicate CachingProgress(res0: Resources, cur: Resources, todo: set<string>, events: map<string, HttpEvent>)
  {
    && CachingReady(res0, events)
    && todo <= res0.Keys && cur.Keys == res0.Keys
    && SameShapes(res0, cur)
    && (forall name :: name in todo ==> cur[name] == res0[name])
    && (forall name :: name in res0 && name !in todo ==> cur[name] == ConfiguredNode(res0, name, events))
  }

  /** Visiting one more entry keeps the loop's progress. */
  lemma CachingStep(res0: Resources, cur: Resources, todo: set<string>, name: string, n: Node,
                    events: map<string, HttpEvent>)
    requires CachingProgress(res0, cur, todo, events) && name in todo
    requires n == ConfiguredNode(res0, name, events)
    ensures CachingProgress(res0, cur[name := n], todo - {name}, events)
  {
    var cur' := cur[name := n];
    ConfiguredNodeShape(res0, name, events);
    forall k | k in res0
      ensures SameShape(res0[k], cur'[k])
    {
      if k != name {
        assert cur'[k] == cur[k];
      }
    }
    forall k | k in todo - {name}
      ensures cur'[k] == res0[k]
    {
      assert cur'[k] == cur[k];
    }
    forall k | k in res0 && k !in todo - {name}
      ensures cur'[k] == ConfiguredNode(res0, k, events)
    {
      if k != name {
        assert k !in todo && cur'[k] == cur[k];
      }
    }
  }

  /** Configuring an entry leaves its `PathPart` and `ParentId` as they were. */
  lemma ConfiguredNodeShape(res: Resources, name: string, events: map<string, HttpEvent>)
    requires CachingReady(res, events) && name in res
    ensures SameShape(res[name], ConfiguredNode(res, name, events))
  {
    assert NodeReady(res, name, events);
  }

  /** The template the plugin compiles: `serverless.service.provider.compiledCloudFormationTemplate`. */
  class Template {
    var Resources: Resources

    constructor (resources: Resources)
      ensures Resources == resources
    {
      Resources := resources;
    }

    /** `configureCaching(slsEvents)`. */
    method ConfigureCaching(slsEvents: map<string, HttpEvent>)
      requires CachingReady(Resources, slsEvents)
      modifies this
      ensures Resources == Configured(old(Resources), slsEvents)
    {
      ghost var res0 := Resources;
      var todo := Resources.Keys;
      while todo != {}
        invariant CachingProgress(res0, Resources, todo, slsEvents)
        decreases todo
      {
        var name :| name in todo;
        var cfnMethod := Resources[name];
        assert cfnMethod == res0[name] && SameShapes(res0, Resources);
        assert NodeReady(res0, name, slsEvents);
        if IsMethod(cfnMethod) {
          var slsEvent := Lookup(slsEvents, name);
          CacheParametersFrame(res0, Resources, cfnMethod, slsEvent);
          var updated := ConfigureMethod(Resources, cfnMethod, slsEvent);
          CachingStep(res0, Resources, todo, name, updated, slsEvents);
          Resources := Resources[name := updated];
        } else {
          CachingStep(res0, Resources, todo, name, cfnMethod, slsEvents);
          assert Resources[name := cfnMethod] == Resources;
        }
        todo := todo - {name};
      }
      assert Resources == Configured(res0, slsEvents);
    }

    /** `markMethodsApiKeyRequired()`; the notice logged for explicitly marked methods is not modelled. */
    method MarkMethodsApiKeyRequired()
      modifies this
      ensures Resources == ApiKeysMarked(old(Resources))
    {
      ghost var res0 := Resources;
      var todo := Resources.Keys;
      while todo != {}
        invariant todo <= res0.Keys && Resources.Keys == res0.Keys
        invariant forall name :: name in todo ==> Resources[name] == res0[name]
        invariant forall name :: name in res0 && name !in todo ==> Resources[name] == MarkedNode(res0[name])
        decreases todo
      {
        var name :| name in todo;
        var r := Resources[name];
        if IsMethod(r) {
          if r.Properties.ApiKeyRequired.None? {
            Resources := Resources[name := r.(Properties := r.Properties.(ApiKeyRequired := Some(true)))];
          }
        }
        todo := todo - {name};
      }
    }
  }
}
