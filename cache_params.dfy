/**
  Cache parameters of one method: `addQueryStringParameters` and
  `getCacheParameters`, which gathers the method's declared request
  parameters, its path parameters and its query-string parameters into the
  names that become its cache key.
*/
module CacheParams {
  import opened Wrappers
  import opened JsObject
  import opened CfnTemplate
  import opened PathParams

  /** The `http` block of a function event, reduced to `querystring`: the only field read here. */
  datatype HttpEvent = HttpEvent(querystring: Option<Object<bool>>)

  /** `slsEvents[name]`: the event behind a method, `None` when the lookup has no entry. */
  function Lookup(events: map<string, HttpEvent>, name: string): Option<HttpEvent>
  {
    if name in events then Some(events[name]) else None
  }

  const QueryPrefix := "method.request.querystring."

  function QueryKey(name: string): string
  {
    QueryPrefix + name
  }

  /** Different query-string names give different keys. */
  lemma QueryKeyInjective(a: string, b: string)
    ensures QueryKey(a) == QueryKey(b) ==> a == b
  {
    if QueryKey(a) == QueryKey(b) {
      assert a == QueryKey(a)[|QueryPrefix|..];
      assert b == QueryKey(b)[|QueryPrefix|..];
    }
  }

  /** A path key and a query-string key never collide. */
  lemma PathAndQueryKeysDiffer(a: string, b: string)
    ensures PathKey(a) != QueryKey(b)
  {
    assert PathKey(a)[15] == 'p';
    assert QueryKey(b)[15] == 'q';
  }

  /** The assignments `addQueryStringParameters` performs for a querystring object, in its order. */
  function QueryEntries(qs: Object<bool>): Object<bool>
  {
    seq(|qs|, i requires 0 <= i < |qs| => (QueryKey(qs[i].0), qs[i].1))
  }

  function EventEntries(ev: HttpEvent): Object<bool>
  {
    match ev.querystring
    case None => []
    case Some(qs) => QueryEntries(qs)
  }

  /** `_.forEach(src, (value, name) => { target[name] = value; })`. */
  method CopyProperties(target: Object<bool>, src: Object<bool>) returns (result: Object<bool>)
    ensures result == PutAll(target, src)
  {
    result := target;
    var i := 0;
    while i < |src|
      invariant 0 <= i <= |src|
      invariant result == PutAll(target, src[..i])
    {
      PutAllSnoc(target, src[..i], src[i]);
      assert src[..i + 1] == src[..i] + [src[i]];
      result := Put(result, src[i].0, src[i].1);
      i := i + 1;
    }
    assert src[..|src|] == src;
  }

  /** `addQueryStringParameters(parameters, slsEvent)`: an absent `querystring` adds nothing. */
  method AddQueryStringParameters(parameters: Object<bool>, slsEvent: HttpEvent) returns (result: Object<bool>)
    ensures result == PutAll(parameters, EventEntries(slsEvent))
  {
    result := parameters;
    if slsEvent.querystring.Some? {
      var qs := slsEvent.querystring.value;
      var i := 0;
      while i < |qs|
        invariant 0 <= i <= |qs|
        invariant result == PutAll(parameters, QueryEntries(qs[..i]))
      {
        var entry := (QueryKey(qs[i].0), qs[i].1);
        PutAllSnoc(parameters, QueryEntries(qs[..i]), entry);
        assert QueryEntries(qs[..i + 1]) == QueryEntries(qs[..i]) + [entry];
        result := Put(result, entry.0, entry.1);
        i := i + 1;
      }
      assert qs[..|qs|] == qs;
    }
  }

  lemma {:induction false} QueryEntriesGet(qs: Object<bool>, name: string)
    ensures Get(QueryEntries(qs), QueryKey(name)) == Get(qs, name)
    decreases |qs|
  {
    if qs != [] {
      QueryKeyInjective(qs[0].0, name);
      assert QueryEntries(qs)[1..] == QueryEntries(qs[1..]);
      QueryEntriesGet(qs[1..], name);
    }
  }

  lemma QueryEntriesValid(qs: Object<bool>)
    requires Valid(qs)
    ensures Valid(QueryEntries(qs))
  {
    var ks := Keys(QueryEntries(qs));
    forall i, j | 0 <= i < j < |ks| ensures ks[i] != ks[j] {
      QueryKeyInjective(qs[i].0, qs[j].0);
    }
  }

  lemma QueryKeysOfEvent(ev: HttpEvent, k: string)
    ensures k in Keys(EventEntries(ev)) <==> DeclaresQueryKey(ev, k)
  {
    if ev.querystring.Some? {
      var qs := ev.querystring.value;
      var ks := Keys(QueryEntries(qs));
      if k in ks {
        var i :| 0 <= i < |ks| && ks[i] == k;
        assert Keys(qs)[i] == qs[i].0;
        assert qs[i].0 in Keys(qs) && k == QueryKey(qs[i].0);
      }
      if DeclaresQueryKey(ev, k) {
        var name :| name in Keys(qs) && k == QueryKey(name);
        var i :| 0 <= i < |qs| && Keys(qs)[i] == name;
        assert ks[i] == k;
      }
    }
  }

  /**
    The object `addQueryStringParameters` fills from `{}`: one key
    `method.request.querystring.<name>` per querystring entry, carrying the
    declared value unchanged, and nothing else.
  */
  ghost function QueryStringParameters(ev: HttpEvent): (p: Object<bool>)
    ensures ev.querystring.None? ==> p == []
    ensures forall k :: k in Keys(p) <==> DeclaresQueryKey(ev, k)
    ensures ev.querystring.Some? && Valid(ev.querystring.value) ==>
              Valid(p) && forall name :: Get(p, QueryKey(name)) == Get(ev.querystring.value, name)
  {
    var p := PutAll([], EventEntries(ev));
    PutAllKeys([], EventEntries(ev));
    assert forall k :: k in Keys(p) <==> DeclaresQueryKey(ev, k) by {
      forall k ensures k in Keys(p) <==> DeclaresQueryKey(ev, k) {
        QueryKeysOfEvent(ev, k);
      }
    }
    if ev.querystring.Some? && Valid(ev.querystring.value) then
      var qs := ev.querystring.value;
      QueryEntriesValid(qs);
      assert forall name :: Get(p, QueryKey(name)) == Get(qs, name) by {
        forall name ensures Get(p, QueryKey(name)) == Get(qs, name) {
          PutAllGet([], QueryEntries(qs), QueryKey(name));
          QueryEntriesGet(qs, name);
        }
      }
      p
    else
      p
  }

  /** The object `getCacheParameters` returns. */
  datatype CacheParameters = CacheParameters(
    request: seq<string>,
    path: Object<bool>,
    queryString: Object<bool>,
    allNames: seq<string>)

  /** `cfnMethod.Properties.ResourceId.Ref`, when truthy. */
  function ResourceRef(m: Node): Option<string>
  {
    RefOf(m.Properties.ResourceId)
  }

  /**
    What `getCacheParameters` needs in order not to throw: request
    parameters and a resource id on the method and, when the id is a `Ref`,
    the referenced resource, a parent walk that ends (its `Ref`s exist and
    it has no cycle; `WalkEndsWithinSize` shows that a walk ending within
    any number of steps ends within `|res|` of them) and the method's event.
  */
  ghost predicate CanGetCacheParameters(res: Resources, m: Node, ev: Option<HttpEvent>)
  {
    && m.Properties.RequestParameters.Some?
    && m.Properties.ResourceId.Some?
    && (ResourceRef(m).Some? ==>
          && ResourceRef(m).value in res
          && WalkEnds(res, res[ResourceRef(m).value], |res|)
          && ev.Some?)
  }

  ghost function CacheParametersOf(res: Resources, m: Node, ev: Option<HttpEvent>): CacheParameters
    requires CanGetCacheParameters(res, m, ev)
  {
    var request := Keys(m.Properties.RequestParameters.value);
    match ResourceRef(m)
    case None =>
      // a method of the root resource: no parameters
      CacheParameters(request, [], [], [])
    case Some(r) =>
      var path := PathParameters(res, res[r], |res|);
      var qs := QueryStringParameters(ev.value);
      CacheParameters(request, path, qs, request + Keys(path) + Keys(qs))
  }

  /** `getCacheParameters(cfnResources, cfnMethod, slsEvent)`. */
  method GetCacheParameters(cfnResources: Resources, cfnMethod: Node, slsEvent: Option<HttpEvent>)
    returns (parameters: CacheParameters)
    requires CanGetCacheParameters(cfnResources, cfnMethod, slsEvent)
    ensures parameters == CacheParametersOf(cfnResources, cfnMethod, slsEvent)
  {
    var request := Keys(cfnMethod.Properties.RequestParameters.value);
    var ref := ResourceRef(cfnMethod);
    if ref.Some? {
      var cfnResource := cfnResources[ref.value];
      var pathParameters := AddPathParameter([], cfnResource, cfnResources, |cfnResources|);
      var qsParameters := AddQueryStringParameters([], slsEvent.value);
      parameters := CacheParameters(request, pathParameters, qsParameters,
                                    request + Keys(pathParameters) + Keys(qsParameters));
    } else {
      parameters := CacheParameters(request, [], [], []);
    }
  }

  /** A method of the root resource gets no cache key names, whatever request parameters it declares. */
  lemma RootMethodHasNoCacheKey(res: Resources, m: Node, ev: Option<HttpEvent>)
    requires CanGetCacheParameters(res, m, ev) && ResourceRef(m).None?
    ensures CacheParametersOf(res, m, ev).allNames == []
    ensures CacheParametersOf(res, m, ev).path == [] && CacheParametersOf(res, m, ev).queryString == []
  {
  }

  /** Some entry of the method's event declares the query-string key `k`. */
  ghost predicate DeclaresQueryKey(ev: HttpEvent, k: string)
  {
    ev.querystring.Some? && exists name :: name in Keys(ev.querystring.value) && k == QueryKey(name)
  }

  /**
    For a method on a `Ref`ed resource, `allNames` starts with the declared
    request-parameter keys, in their order, and holds exactly those keys,
    the path keys of the parameter segments on the chain and the
    query-string keys of the event.
  */
  lemma AllNamesContents(res: Resources, m: Node, ev: Option<HttpEvent>)
    requires CanGetCacheParameters(res, m, ev) && ResourceRef(m).Some?
    ensures var p := CacheParametersOf(res, m, ev);
            var rp := m.Properties.RequestParameters.value;
            && |rp| <= |p.allNames|
            && p.allNames[..|rp|] == Keys(rp)
            && forall k :: k in p.allNames <==>
                 || k in Keys(rp)
                 || DeclaresPathKey(Chain(res, res[ResourceRef(m).value], |res|), k)
                 || DeclaresQueryKey(ev.value, k)
  {
    var p := CacheParametersOf(res, m, ev);
    var rp := m.Properties.RequestParameters.value;
    assert p.allNames == Keys(rp) + Keys(p.path) + Keys(p.queryString);
  }

  /**
    Caching applies to a method exactly when its resource id is a `Ref` and
    it declares a request parameter, a resource on its chain has a parameter
    segment, or its event has a query-string entry.
  */
  lemma CachingAppliesIff(res: Resources, m: Node, ev: Option<HttpEvent>)
    requires CanGetCacheParameters(res, m, ev)
    ensures CacheParametersOf(res, m, ev).allNames != [] <==>
              && ResourceRef(m).Some?
              && (|| m.Properties.RequestParameters.value != []
                  || HasParamSegment(Chain(res, res[ResourceRef(m).value], |res|))
                  || (ev.value.querystring.Some? && ev.value.querystring.value != []))
  {
    if ResourceRef(m).Some? {
      var p := CacheParametersOf(res, m, ev);
      var n := res[ResourceRef(m).value];
      var rp := m.Properties.RequestParameters.value;
      assert |p.allNames| == |rp| + |p.path| + |p.queryString|;
      PathParametersNonEmpty(res, n, |res|);
      QueryStringParametersNonEmpty(ev.value);
    }
  }

  /** Some resource of the chain has a parameter segment. */
  ghost predicate HasParamSegment(c: seq<Node>)
  {
    exists i :: 0 <= i < |c| && SegmentParam(c[i]).Some?
  }

  lemma PathParametersNonEmpty(res: Resources, n: Node, steps: nat)
    requires WalkEnds(res, n, steps)
    ensures PathParameters(res, n, steps) != [] <==> HasParamSegment(Chain(res, n, steps))
  {
    var p, c := PathParameters(res, n, steps), Chain(res, n, steps);
    if p != [] {
      assert DeclaresPathKey(c, Keys(p)[0]);
    }
    if HasParamSegment(c) {
      var i :| 0 <= i < |c| && SegmentParam(c[i]).Some?;
      var k := PathKey(SegmentParam(c[i]).value);
      assert DeclaresPathKey(c, k);
      assert k in Keys(p);
    }
  }

  lemma QueryStringParametersNonEmpty(ev: HttpEvent)
    ensures QueryStringParameters(ev) != [] <==> ev.querystring.Some? && ev.querystring.value != []
  {
    var p, qs := QueryStringParameters(ev), ev.querystring;
    if p != [] {
      assert DeclaresQueryKey(ev, Keys(p)[0]);
    }
    if qs.Some? && qs.value != [] {
      assert Keys(qs.value)[0] in Keys(qs.value);
      assert DeclaresQueryKey(ev, QueryKey(qs.value[0].0));
      assert QueryKey(qs.value[0].0) in Keys(p);
    }
  }

  /**
    `allNames` is not de-duplicated: a declared request parameter that is
    also a path key of the chain is listed twice.
  */
  lemma AllNamesMayRepeat(res: Resources, m: Node, ev: Option<HttpEvent>, k: string)
    requires CanGetCacheParameters(res, m, ev) && ResourceRef(m).Some?
    requires k in Keys(m.Properties.RequestParameters.value)
    requires DeclaresPathKey(Chain(res, res[ResourceRef(m).value], |res|), k)
    ensures !Distinct(CacheParametersOf(res, m, ev).allNames)
  {
    var p := CacheParametersOf(res, m, ev);
    var rk := Keys(m.Properties.RequestParameters.value);
    assert p.allNames == rk + Keys(p.path) + Keys(p.queryString);
    var i :| 0 <= i < |rk| && rk[i] == k;
    assert k in Keys(p.path);
    var j :| 0 <= j < |Keys(p.path)| && Keys(p.path)[j] == k;
    assert p.allNames[i] == k && p.allNames[|rk| + j] == k;
  }
}
