/**
 * InterceptorChain: the plugins of a configuration, in registration order.
 * `pluginAll` hands the target to each plugin in turn, each one wrapping
 * what the previous one returned, so the last-registered plugin ends up
 * outermost.
 */
module InterceptorChains {
  import opened Lang

  /** A plugin, seen through its `plugin` method: given a target, the object to use in its place. */
  datatype Interceptor = Interceptor(name: string, plugin: Obj -> Obj)

  /** The target after the given interceptors have wrapped it, first one innermost. */
  function Wrapped(interceptors: seq<Interceptor>, target: Obj): Obj
    decreases |interceptors|
  {
    if interceptors == [] then target
    else interceptors[|interceptors| - 1].plugin(Wrapped(interceptors[..|interceptors| - 1], target))
  }

  /** Wrapping by two lists in a row is wrapping by their concatenation. */
  lemma {:induction false} WrappedAppend(a: seq<Interceptor>, b: seq<Interceptor>, target: Obj)
    ensures Wrapped(a + b, target) == Wrapped(b, Wrapped(a, target))
    decreases |b|
  {
    if b == [] {
      assert a + b == a;
    } else {
      var init := b[..|b| - 1];
      assert (a + b)[..|a + b| - 1] == a + init;
      assert (a + b)[|a + b| - 1] == b[|b| - 1];
      WrappedAppend(a, init, target);
    }
  }

  /** One interceptor after the others: it wraps the result of all the earlier ones. */
  lemma {:induction false} WrappedLast(interceptors: seq<Interceptor>, i: Interceptor, target: Obj)
    ensures Wrapped(interceptors + [i], target) == i.plugin(Wrapped(interceptors, target))
  {
    assert (interceptors + [i])[..|interceptors|] == interceptors;
  }

  /**
   * Plugins that pass the target through unwrapped (Plugin.wrap does so for
   * a target type none of their signatures names) leave it as it was.
   */
  lemma {:induction false} PassThroughLeavesTarget(interceptors: seq<Interceptor>, target: Obj)
    requires forall k :: 0 <= k < |interceptors| ==> interceptors[k].plugin(target) == target
    ensures Wrapped(interceptors, target) == target
    decreases |interceptors|
  {
    if interceptors != [] {
      var init := interceptors[..|interceptors| - 1];
      assert forall k :: 0 <= k < |init| ==> init[k] == interceptors[k];
      PassThroughLeavesTarget(init, target);
    }
  }

  class InterceptorChain {
    var interceptors: seq<Interceptor>

    /** A new chain has no interceptors. */
    constructor ()
      ensures interceptors == []
    {
      interceptors := [];
    }

    /** pluginAll: each registered interceptor wraps the result of the one before it. */
    method PluginAll(target: Obj) returns (r: Obj)
      ensures r == Wrapped(interceptors, target)
    {
      r := target;
      for i := 0 to |interceptors|
        invariant r == Wrapped(interceptors[..i], target)
      {
        assert interceptors[..i + 1][..i] == interceptors[..i];
        r := interceptors[i].plugin(r);
      }
      assert interceptors[..|interceptors|] == interceptors;
    }

    /** addInterceptor: the new interceptor goes last. */
    method AddInterceptor(interceptor: Interceptor)
      modifies this
      ensures interceptors == old(interceptors) + [interceptor]
    {
      interceptors := interceptors + [interceptor];
    }

    /** getInterceptors: the registered interceptors in order; a value, so callers cannot change the chain through it. */
    function GetInterceptors(): seq<Interceptor>
      reads this
    {
      interceptors
    }
  }
}
