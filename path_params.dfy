/**
  Path parameters of a method: `paramRegex` and `addPathParameter`, which
  walks from the method's resource up through `ParentId.Ref` links and
  records `method.request.path.<name> = true` for every `{name}` segment.
*/
module PathParams {
  import opened Wrappers
  import opened JsObject
  import opened CfnTemplate

  /** The characters JavaScript's `.` refuses to match. */
  predicate IsLineTerminator(c: char)
  {
    c == '\n' || c == '\r' || c == '\U{2028}' || c == '\U{2029}'
  }

  predicate NoLineTerminator(s: string)
  {
    forall i :: 0 <= i < |s| ==> !IsLineTerminator(s[i])
  }

  /**
    `paramRegex.exec(pathPart)` with `paramRegex = /^{(.+)}$/`: the captured
    group when the whole segment is `{…}` around at least one character.
  */
  function ParamName(pathPart: string): (name: Option<string>)
    ensures name.Some? ==> pathPart == "{" + name.value + "}"
    ensures name.Some? ==> name.value != "" && NoLineTerminator(name.value)
  {
    if 3 <= |pathPart| && pathPart[0] == '{' && pathPart[|pathPart| - 1] == '}'
       && NoLineTerminator(pathPart[1..|pathPart| - 1])
    then Some(pathPart[1..|pathPart| - 1])
    else None
  }

  /** Conversely, every braced segment around a non-empty single-line text is a parameter. */
  lemma ParamNameOfBraced(inner: string)
    ensures ParamName("{" + inner + "}") == if inner != "" && NoLineTerminator(inner) then Some(inner) else None
  {
    var s := "{" + inner + "}";
    assert s[1..|s| - 1] == inner;
  }

  /** A literal segment, a half-braced one and an empty pair of braces are not parameters. */
  lemma ParamNameRejects()
    ensures ParamName("users") == None
    ensures ParamName("foo{bar}") == None
    ensures ParamName("{bar}baz") == None
    ensures ParamName("{}") == None
    ensures ParamName("{a\nb}") == None
    ensures ParamName("{id}") == Some("id")
  {
    assert "{a\nb}" == "{" + "a\nb" + "}";
    ParamNameOfBraced("a\nb");
    assert !NoLineTerminator("a\nb") by { assert IsLineTerminator("a\nb"[1]); }
    assert "{id}" == "{" + "id" + "}";
    ParamNameOfBraced("id");
  }

  /** The parameter a resource's `PathPart` declares; an absent `PathPart` (`exec(undefined)`) matches nothing. */
  function SegmentParam(n: Node): Option<string>
  {
    match n.Properties.PathPart
    case Some(p) => ParamName(p)
    case None => None
  }

  /** The resource the walk continues to: `ParentId.Ref`, when truthy. */
  function ParentOf(n: Node): Option<string>
  {
    RefOf(n.Properties.ParentId)
  }

  const PathPrefix := "method.request.path."

  function PathKey(name: string): string
  {
    PathPrefix + name
  }

  /**
    The walk from `n` reaches a resource without a `ParentId.Ref` within
    `steps` steps, and every `Ref` on the way names an existing resource.
  */
  ghost predicate WalkEnds(res: Resources, n: Node, steps: nat)
    decreases steps
  {
    match ParentOf(n)
    case None => true
    case Some(p) => steps > 0 && p in res && WalkEnds(res, res[p], steps - 1)
  }

  /** A resource whose `ParentId` refers to itself: the walk, which has no cycle guard, never ends. */
  lemma {:induction false} SelfParentNeverEnds(res: Resources, x: string, steps: nat)
    requires x in res && ParentOf(res[x]) == Some(x)
    ensures !WalkEnds(res, res[x], steps)
    decreases steps
  {
    if steps > 0 {
      SelfParentNeverEnds(res, x, steps - 1);
    }
  }

  /** The resources the walk visits, from `n` up to the first one without a parent `Ref`. */
  ghost function Chain(res: Resources, n: Node, steps: nat): (c: seq<Node>)
    requires WalkEnds(res, n, steps)
    ensures 1 <= |c| <= steps + 1
    ensures c[0] == n && ParentOf(c[|c| - 1]).None?
    ensures forall i :: 0 <= i < |c| - 1 ==>
              ParentOf(c[i]).Some? && ParentOf(c[i]).value in res && c[i + 1] == res[ParentOf(c[i]).value]
    decreases steps
  {
    match ParentOf(n)
    case None => [n]
    case Some(p) => [n] + Chain(res, res[p], steps - 1)
  }

  /** Some resource of the chain `c` has a parameter segment whose path key is `k`. */
  ghost predicate DeclaresPathKey(c: seq<Node>, k: string)
  {
    exists i :: 0 <= i < |c| && SegmentParam(c[i]).Some? && k == PathKey(SegmentParam(c[i]).value)
  }

  /** The assignments the walk performs along a chain, in order: one per parameter segment. */
  function ChainEntries(c: seq<Node>): (e: Object<bool>)
    ensures forall i :: 0 <= i < |e| ==> e[i].1
    ensures forall k :: k in Keys(e) <==> DeclaresPathKey(c, k)
  {
    if c == [] then []
    else
      var rest := ChainEntries(c[1..]);
      assert forall i :: 1 <= i < |c| ==> c[i] == c[1..][i - 1];
      match SegmentParam(c[0])
      case Some(name) => [(PathKey(name), true)] + rest
      case None => rest
  }

  /** The assignment a single resource contributes. */
  function OwnEntries(n: Node): Object<bool>
  {
    match SegmentParam(n)
    case Some(name) => [(PathKey(name), true)]
    case None => []
  }

  lemma ChainEntriesCons(c: seq<Node>)
    requires c != []
    ensures ChainEntries(c) == OwnEntries(c[0]) + ChainEntries(c[1..])
  {
  }

  /** `addPathParameter(parameters, cfnResource, cfnResources)`, threading the accumulator through the recursion. */
  method AddPathParameter(parameters: Object<bool>, cfnResource: Node, cfnResources: Resources, ghost steps: nat)
    returns (result: Object<bool>)
    requires WalkEnds(cfnResources, cfnResource, steps)
    ensures result == PutAll(parameters, ChainEntries(Chain(cfnResources, cfnResource, steps)))
    decreases steps
  {
    ghost var c := Chain(cfnResources, cfnResource, steps);
    ghost var own := OwnEntries(cfnResource);
    ChainEntriesCons(c);
    result := parameters;
    var name := SegmentParam(cfnResource);
    if name.Some? {
      // path parameters are always mandatory
      result := Put(result, PathKey(name.value), true);
    }
    assert result == PutAll(parameters, own);
    var parent := ParentOf(cfnResource);
    if parent.Some? {
      result := AddPathParameter(result, cfnResources[parent.value], cfnResources, steps - 1);
      assert c[1..] == Chain(cfnResources, cfnResources[parent.value], steps - 1);
      PutAllAppend(parameters, own, ChainEntries(c[1..]));
    } else {
      assert c == [cfnResource];
      assert ChainEntries(c[1..]) == [];
      assert ChainEntries(c) == own;
    }
  }

  /**
    The object the walk fills when it starts from `{}`: exactly one key
    `method.request.path.<name>` per parameter segment on the chain, every
    one mapped to `true`.
  */
  ghost function PathParameters(res: Resources, n: Node, steps: nat): (p: Object<bool>)
    requires WalkEnds(res, n, steps)
    ensures Valid(p)
    ensures forall k :: k in Keys(p) ==> Get(p, k) == Some(true)
    ensures forall k :: k in Keys(p) <==> DeclaresPathKey(Chain(res, n, steps), k)
  {
    var e := ChainEntries(Chain(res, n, steps));
    PutAllSameValue([], e, true);
    PutAllKeys([], e);
    PutAll([], e)
  }

  /** Only `PathPart` and `ParentId` matter to the walk. */
  predicate SameShape(a: Node, b: Node)
  {
    a.Properties.PathPart == b.Properties.PathPart && a.Properties.ParentId == b.Properties.ParentId
  }

  ghost predicate SameShapes(r1: Resources, r2: Resources)
  {
    r1.Keys == r2.Keys && forall k :: k in r1 ==> SameShape(r1[k], r2[k])
  }

  /**
    Two templates that differ only outside `PathPart` and `ParentId` yield
    the same walk: rewriting `RequestParameters` or `Integration` of other
    methods while iterating cannot change a method's path parameters.
  */
  lemma {:induction false} WalkFrame(r1: Resources, r2: Resources, n1: Node, n2: Node, steps: nat)
    requires SameShapes(r1, r2) && SameShape(n1, n2)
    requires WalkEnds(r1, n1, steps)
    ensures WalkEnds(r2, n2, steps)
    ensures ChainEntries(Chain(r1, n1, steps)) == ChainEntries(Chain(r2, n2, steps))
    decreases steps
  {
    if ParentOf(n1).Some? {
      var p := ParentOf(n1).value;
      WalkFrame(r1, r2, r1[p], r2[p], steps - 1);
    }
    ChainEntriesUnfold(r1, n1, steps);
    ChainEntriesUnfold(r2, n2, steps);
  }

  /** The walk's assignments: the resource's own, then those of the walk from its parent. */
  lemma ChainEntriesUnfold(res: Resources, n: Node, steps: nat)
    requires WalkEnds(res, n, steps)
    ensures ParentOf(n).None? ==> ChainEntries(Chain(res, n, steps)) == OwnEntries(n)
    ensures ParentOf(n).Some? ==>
              && steps > 0 && ParentOf(n).value in res
              && ChainEntries(Chain(res, n, steps))
                 == OwnEntries(n) + ChainEntries(Chain(res, res[ParentOf(n).value], steps - 1))
  {
    var c := Chain(res, n, steps);
    ChainTail(res, n, steps);
    ChainEntriesCons(c);
    if ParentOf(n).None? {
      assert c[1..] == [];
    }
  }

  /** The chain is the resource followed by the chain from its parent. */
  lemma ChainTail(res: Resources, n: Node, steps: nat)
    requires WalkEnds(res, n, steps)
    ensures ParentOf(n).None? ==> Chain(res, n, steps) == [n]
    ensures ParentOf(n).Some? ==>
              && steps > 0 && ParentOf(n).value in res
              && Chain(res, n, steps)[1..] == Chain(res, res[ParentOf(n).value], steps - 1)
  {
    if ParentOf(n).Some? {
      var rest := Chain(res, res[ParentOf(n).value], steps - 1);
      assert Chain(res, n, steps) == [n] + rest;
    }
  }

  /**
    The key the walk from `n` reaches after `d` steps (`d >= 1`), when it
    takes that many steps through existing resources.
  */
  ghost function Hop(res: Resources, n: Node, d: nat): (r: Option<string>)
    ensures r.Some? ==> r.value in res
    decreases d
  {
    match ParentOf(n)
    case None => None
    case Some(p) =>
      if p !in res || d == 0 then None
      else if d == 1 then Some(p)
      else Hop(res, res[p], d - 1)
  }

  /** Walking `a` steps to `p` and then `b` more is walking `a + b` steps. */
  lemma {:induction false} HopThen(res: Resources, n: Node, a: nat, b: nat, p: string)
    requires 1 <= a && 1 <= b && Hop(res, n, a) == Some(p)
    ensures Hop(res, n, a + b) == Hop(res, res[p], b)
    decreases a
  {
    if a > 1 {
      HopThen(res, res[ParentOf(n).value], a - 1, b, p);
    }
  }

  /** A walk that ends within `s` steps and reaches `p` after `a` steps ends within `s - a` steps from `p`. */
  lemma {:induction false} WalkEndsAfterHop(res: Resources, n: Node, s: nat, a: nat, p: string)
    requires WalkEnds(res, n, s) && 1 <= a && Hop(res, n, a) == Some(p)
    ensures a <= s && WalkEnds(res, res[p], s - a)
    decreases a
  {
    if a > 1 {
      WalkEndsAfterHop(res, res[ParentOf(n).value], s - 1, a - 1, p);
    }
  }

  /** A resource the walk from itself comes back to is on a cycle, and its walk never ends. */
  lemma {:induction false} CycleNeverEnds(res: Resources, p: string, d: nat, s: nat)
    requires p in res && 1 <= d && Hop(res, res[p], d) == Some(p)
    ensures !WalkEnds(res, res[p], s)
    decreases s
  {
    if WalkEnds(res, res[p], s) {
      WalkEndsAfterHop(res, res[p], s, d, p);
      CycleNeverEnds(res, p, d, s - d);
    }
  }

  /** A walk that ends, but not within `s` steps, takes at least `s + 1` steps. */
  lemma {:induction false} HopsBeforeEnd(res: Resources, n: Node, k: nat, s: nat, i: nat)
    requires WalkEnds(res, n, k) && !WalkEnds(res, n, s) && 1 <= i <= s + 1
    ensures Hop(res, n, i).Some?
    decreases i
  {
    if i > 1 {
      HopsBeforeEnd(res, res[ParentOf(n).value], k - 1, s - 1, i - 1);
    }
  }

  /** Distinct elements of a set are no more than the set has. */
  lemma {:induction false} DistinctWithin(xs: seq<string>, s: set<string>)
    requires Distinct(xs) && forall i :: 0 <= i < |xs| ==> xs[i] in s
    ensures |xs| <= |s|
    decreases |xs|
  {
    if xs != [] {
      forall i | 0 <= i < |xs| - 1
        ensures xs[1..][i] in s - {xs[0]}
      {
        assert xs[1..][i] == xs[i + 1];
      }
      DistinctWithin(xs[1..], s - {xs[0]});
    }
  }

  /**
    The bound `|res|` asks nothing of a walk beyond ending: a walk that
    ends at all never visits a resource twice, so it ends within as many
    steps as the template has resources.
  */
  lemma {:induction false} WalkEndsWithinSize(res: Resources, n: Node, k: nat)
    requires WalkEnds(res, n, k)
    ensures WalkEnds(res, n, |res|)
  {
    if !WalkEnds(res, n, |res|) {
      var m := |res| + 1;
      forall i | 1 <= i <= m
        ensures Hop(res, n, i).Some?
      {
        HopsBeforeEnd(res, n, k, |res|, i);
      }
      var xs := seq(m, i requires 0 <= i < m => Hop(res, n, i + 1).value);
      if Distinct(xs) {
        DistinctWithin(xs, res.Keys);
      } else {
        var i, j :| 0 <= i < j < m && xs[i] == xs[j];
        var p := xs[i];
        HopThen(res, n, i + 1, j - i, p);
        assert Hop(res, res[p], j - i) == Some(p);
        WalkEndsAfterHop(res, n, k, i + 1, p);
        CycleNeverEnds(res, p, j - i, k - (i + 1));
      }
    }
  }
}
