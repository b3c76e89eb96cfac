/**
 * ParamNameResolver: names the parameters of a mapper method and turns the
 * arguments of a call into the single parameter object a statement sees.
 */
module ParamNameResolvers {
  import opened Lang
  import opened Text

  const GenericNamePrefix := "param"

  datatype Annotation = ParamAnnotation(value: string) | OtherAnnotation

  /**
   * One declared parameter of a mapper method.  `special` says whether its
   * type is a RowBounds or a ResultHandler; `actualName` is the name the
   * compiler recorded, if any.
   */
  datatype MethodParameter = MethodParameter(special: bool, annotations: seq<Annotation>, actualName: Option<string>)

  /** The names a method's parameters receive, keyed by argument index in ascending order. */
  datatype Resolution = Resolution(names: seq<(nat, string)>, hasParamAnnotation: bool)

  /** The value of the first @Param annotation, if any. */
  function ParamValue(annotations: seq<Annotation>): (v: Option<string>)
    decreases |annotations|
  {
    if annotations == [] then None
    else if annotations[0].ParamAnnotation? then Some(annotations[0].value)
    else ParamValue(annotations[1..])
  }

  /** A @Param value, else the actual name when enabled and known, else the number of names so far. */
  function NameOf(p: MethodParameter, useActualParamName: bool, size: nat): string {
    match ParamValue(p.annotations)
    case Some(v) => v
    case None =>
      if useActualParamName && p.actualName.Some? then p.actualName.value else NatToString(size)
  }

  /** The names the constructor's loop assigns, in index order; special parameters get none. */
  function NamesOf(params: seq<MethodParameter>, useActualParamName: bool): (names: seq<(nat, string)>)
    ensures |names| <= |params|
    ensures forall i :: 0 <= i < |names| ==> names[i].0 < |params|
    decreases |params|
  {
    if params == [] then []
    else
      var init := NamesOf(params[..|params| - 1], useActualParamName);
      var p := params[|params| - 1];
      if p.special then init else init + [(|params| - 1, NameOf(p, useActualParamName, |init|))]
  }

  /** Whether some non-special parameter carries @Param. */
  predicate AnyParamAnnotation(params: seq<MethodParameter>) {
    exists i :: 0 <= i < |params| && !params[i].special && ParamValue(params[i].annotations).Some?
  }

  function ResolutionOf(params: seq<MethodParameter>, useActualParamName: bool): Resolution {
    Resolution(NamesOf(params, useActualParamName), AnyParamAnnotation(params))
  }

  /** Keys strictly ascending and below `n`. */
  predicate AscendingKeys(names: seq<(nat, string)>, n: nat) {
    (forall i :: 0 <= i < |names| ==> names[i].0 < n) &&
    (forall i, j :: 0 <= i < j < |names| ==> names[i].0 < names[j].0)
  }

  /** One more declared parameter adds one name, unless it is special. */
  lemma {:induction false} NamesOfSnoc(params: seq<MethodParameter>, p: MethodParameter, useActualParamName: bool)
    ensures NamesOf(params + [p], useActualParamName) ==
      var init := NamesOf(params, useActualParamName);
      if p.special then init else init + [(|params|, NameOf(p, useActualParamName, |init|))]
  {
    assert (params + [p])[..|params|] == params;
  }

  /**
   * Names are keyed by original argument index, ascending, and the i-th
   * name is the one its parameter gets when i names precede it, so default
   * names count "0", "1", ... over the named parameters only.
   */
  lemma {:induction false} NamesByIndex(params: seq<MethodParameter>, useActualParamName: bool)
    ensures var names := NamesOf(params, useActualParamName);
      && AscendingKeys(names, |params|)
      && (forall i :: 0 <= i < |names| ==> names[i].1 == NameOf(params[names[i].0], useActualParamName, i))
    decreases |params|
  {
    if params != [] {
      var init := params[..|params| - 1];
      NamesByIndex(init, useActualParamName);
      assert forall k :: 0 <= k < |init| ==> init[k] == params[k];
    }
  }

  /** Exactly the non-special parameters are named. */
  lemma {:induction false} NamedIffRegular(params: seq<MethodParameter>, useActualParamName: bool, k: nat)
    requires k < |params|
    ensures !params[k].special <==>
      exists i :: 0 <= i < |NamesOf(params, useActualParamName)| && NamesOf(params, useActualParamName)[i].0 == k
    decreases |params|
  {
    var init := params[..|params| - 1];
    var names := NamesOf(params, useActualParamName);
    var before := NamesOf(init, useActualParamName);
    if k < |init| {
      NamedIffRegular(init, useActualParamName, k);
      assert init[k] == params[k];
      assert names == if params[|params| - 1].special then before
        else before + [(|params| - 1, NameOf(params[|params| - 1], useActualParamName, |before|))];
      assert forall i :: 0 <= i < |before| ==> names[i] == before[i];
      if !params[k].special {
        var i :| 0 <= i < |before| && before[i].0 == k;
        assert NamesOf(params, useActualParamName)[i].0 == k;
      } else {
        forall i | 0 <= i < |names|
          ensures names[i].0 != k
        {
          if i >= |before| {
            assert names[i].0 == |params| - 1;
          }
        }
      }
    } else {
      assert names == if params[k].special then before
        else before + [(k, NameOf(params[k], useActualParamName, |before|))];
      if !params[k].special {
        assert names[|before|].0 == k;
      } else {
        assert forall i :: 0 <= i < |before| ==> before[i].0 < k;
      }
    }
  }

  /** The first @Param annotation's value: the inner loop of the constructor, stopping at the first match. */
  method FindParamAnnotation(annotations: seq<Annotation>) returns (name: Option<string>)
    ensures name == ParamValue(annotations)
  {
    name := None;
    var i := 0;
    while i < |annotations|
      invariant 0 <= i <= |annotations|
      invariant ParamValue(annotations[i..]) == ParamValue(annotations)
    {
      if annotations[i].ParamAnnotation? {
        return Some(annotations[i].value);
      }
      assert annotations[i..][1..] == annotations[i + 1..];
      i := i + 1;
    }
  }

  /** The constructor's loop over the declared parameters. */
  method ResolveNames(params: seq<MethodParameter>, useActualParamName: bool) returns (names: seq<(nat, string)>, hasParamAnnotation: bool)
    ensures Resolution(names, hasParamAnnotation) == ResolutionOf(params, useActualParamName)
  {
    names := [];
    hasParamAnnotation := false;
    var paramIndex := 0;
    while paramIndex < |params|
      invariant paramIndex <= |params|
      invariant names == NamesOf(params[..paramIndex], useActualParamName)
      invariant hasParamAnnotation == AnyParamAnnotation(params[..paramIndex])
    {
      var p := params[paramIndex];
      assert params[..paramIndex + 1] == params[..paramIndex] + [p];
      NamesOfSnoc(params[..paramIndex], p, useActualParamName);
      AnyParamAnnotationSnoc(params[..paramIndex], p);
      if !p.special {
        var name := NameFor(p, useActualParamName, |names|);
        if name.1 {
          hasParamAnnotation := true;
        }
        names := names + [(paramIndex, name.0)];
      }
      paramIndex := paramIndex + 1;
    }
    assert params[..|params|] == params;
  }

  /** The name one regular parameter receives, and whether it came from @Param. */
  method NameFor(p: MethodParameter, useActualParamName: bool, size: nat) returns (r: (string, bool))
    ensures r == (NameOf(p, useActualParamName, size), ParamValue(p.annotations).Some?)
  {
    var name := FindParamAnnotation(p.annotations);
    var annotated := name.Some?;
    if name.None? {
      if useActualParamName {
        name := p.actualName;
      }
      if name.None? {
        name := Some(NatToString(size));
      }
    }
    r := (name.value, annotated);
  }

  lemma {:induction false} AnyParamAnnotationSnoc(params: seq<MethodParameter>, p: MethodParameter)
    ensures AnyParamAnnotation(params + [p]) <==>
      AnyParamAnnotation(params) || (!p.special && ParamValue(p.annotations).Some?)
  {
    var s := params + [p];
    if AnyParamAnnotation(params) {
      var i :| 0 <= i < |params| && !params[i].special && ParamValue(params[i].annotations).Some?;
      assert s[i] == params[i];
    }
    if AnyParamAnnotation(s) && !(!p.special && ParamValue(p.annotations).Some?) {
      var i :| 0 <= i < |s| && !s[i].special && ParamValue(s[i].annotations).Some?;
      assert i < |params| && s[i] == params[i];
    }
    if !p.special && ParamValue(p.annotations).Some? {
      assert s[|params|] == p;
    }
  }

  /** The ParamMap key for the i-th name (counting from 1). */
  function GenericName(i: nat): string {
    GenericNamePrefix + NatToString(i)
  }

  /** Different positions give different generic names. */
  lemma {:induction false} GenericNameInjective(a: nat, b: nat)
    requires GenericName(a) == GenericName(b)
    ensures a == b
  {
    assert GenericName(a)[5..] == NatToString(a);
    assert GenericName(b)[5..] == NatToString(b);
    NatToStringInjective(a, b);
  }

  function NameSet(names: seq<(nat, string)>): set<string> {
    set i | 0 <= i < |names| :: names[i].1
  }

  /**
   * wrapToMapIfCollection: a Collection becomes a map with "collection"
   * (and "list" for a List), an array a map with "array", each also
   * under the given name; anything else is returned unchanged.
   */
  function WrapToMapIfCollection(obj: Obj, actualParamName: Option<string>): (r: Obj)
    ensures (obj.ListObj? || obj.CollectionObj? || obj.ArrayObj?) <==> (r.MapObj? && r != obj)
    ensures obj.ListObj? || obj.CollectionObj? ==>
      r.MapObj? && r.entries.Keys == {"collection"} + (if obj.ListObj? then {"list"} else {}) + OptionSet(actualParamName)
    ensures obj.ArrayObj? ==> r.MapObj? && r.entries.Keys == {"array"} + OptionSet(actualParamName)
    ensures r.MapObj? && r != obj ==> forall k :: k in r.entries ==> r.entries[k] == obj
    ensures r.MapObj? && r != obj ==> r.strict
    ensures !(obj.ListObj? || obj.CollectionObj? || obj.ArrayObj?) ==> r == obj
  {
    if obj.ListObj? || obj.CollectionObj? then
      var m := map["collection" := obj];
      var m := if obj.ListObj? then m["list" := obj] else m;
      MapObj(if actualParamName.Some? then m[actualParamName.value := obj] else m, true)
    else if obj.ArrayObj? then
      var m := map["array" := obj];
      MapObj(if actualParamName.Some? then m[actualParamName.value := obj] else m, true)
    else obj
  }

  function OptionSet(o: Option<string>): set<string> {
    if o.Some? then {o.value} else {}
  }

  /** The ParamMap after the first `k` names: each name, then its generic alias unless that is a declared name. */
  function ParamMapOf(names: seq<(nat, string)>, args: seq<Obj>, k: nat): map<string, Obj>
    requires k <= |names| && forall i :: 0 <= i < |names| ==> names[i].0 < |args|
    decreases k
  {
    if k == 0 then map[]
    else
      var (index, name) := names[k - 1];
      var m := ParamMapOf(names, args, k - 1)[name := args[index]];
      if GenericName(k) in NameSet(names) then m else m[GenericName(k) := args[index]]
  }

  /** The keys are the declared names and the generic names that are not declared. */
  lemma {:induction false} ParamMapKeys(names: seq<(nat, string)>, args: seq<Obj>, k: nat)
    requires k <= |names| && forall i :: 0 <= i < |names| ==> names[i].0 < |args|
    ensures forall n :: n in ParamMapOf(names, args, k) <==>
      (exists i :: 0 <= i < k && names[i].1 == n) ||
      (n !in NameSet(names) && exists j :: 1 <= j <= k && GenericName(j) == n)
    decreases k
  {
    if k > 0 {
      ParamMapKeys(names, args, k - 1);
    }
  }

  /** A name not declared again later holds its own argument. */
  lemma {:induction false} ParamMapNames(names: seq<(nat, string)>, args: seq<Obj>, k: nat)
    requires k <= |names| && forall i :: 0 <= i < |names| ==> names[i].0 < |args|
    ensures forall i :: 0 <= i < k && (forall j :: i < j < k ==> names[j].1 != names[i].1) ==>
      names[i].1 in ParamMapOf(names, args, k) && ParamMapOf(names, args, k)[names[i].1] == args[names[i].0]
    decreases k
  {
    if k > 0 {
      ParamMapNames(names, args, k - 1);
      var prev := ParamMapOf(names, args, k - 1);
      var (index, name) := names[k - 1];
      var m := prev[name := args[index]];
      assert name in NameSet(names);
      assert ParamMapOf(names, args, k) == if GenericName(k) in NameSet(names) then m else m[GenericName(k) := args[index]];
      forall i | 0 <= i < k && (forall j :: i < j < k ==> names[j].1 != names[i].1)
        ensures names[i].1 in ParamMapOf(names, args, k) && ParamMapOf(names, args, k)[names[i].1] == args[names[i].0]
      {
        assert names[i].1 in NameSet(names);
        if i < k - 1 {
          assert names[k - 1].1 != names[i].1;
          assert forall j :: i < j < k - 1 ==> names[j].1 != names[i].1;
          assert names[i].1 in prev && prev[names[i].1] == args[names[i].0];
        }
      }
    }
  }

  /** Each generic name that is not declared holds the argument of its position. */
  lemma {:induction false} ParamMapGenerics(names: seq<(nat, string)>, args: seq<Obj>, k: nat)
    requires k <= |names| && forall i :: 0 <= i < |names| ==> names[i].0 < |args|
    ensures forall j :: 1 <= j <= k && GenericName(j) !in NameSet(names) ==>
      GenericName(j) in ParamMapOf(names, args, k) && ParamMapOf(names, args, k)[GenericName(j)] == args[names[j - 1].0]
    decreases k
  {
    if k > 0 {
      ParamMapGenerics(names, args, k - 1);
      assert names[k - 1].1 in NameSet(names);
      forall j | 1 <= j < k && GenericName(j) !in NameSet(names)
        ensures GenericName(j) in ParamMapOf(names, args, k) && ParamMapOf(names, args, k)[GenericName(j)] == args[names[j - 1].0]
      {
        if GenericName(j) == GenericName(k) {
          GenericNameInjective(j, k);
        }
      }
    }
  }

  /** getNamedParams, given the resolution and the arguments of one call. */
  function NamedParams(res: Resolution, useActualParamName: bool, args: Option<seq<Obj>>): Obj
    requires args.Some? ==> forall i :: 0 <= i < |res.names| ==> res.names[i].0 < |args.value|
  {
    if args.None? || |res.names| == 0 then Null
    else if !res.hasParamAnnotation && |res.names| == 1 then
      WrapToMapIfCollection(args.value[res.names[0].0], if useActualParamName then Some(res.names[0].1) else None)
    else MapObj(ParamMapOf(res.names, args.value, |res.names|), true)
  }

  /** The name the source passes for a lone argument: the one stored under argument index 0. */
  function NameAtIndexZero(names: seq<(nat, string)>): Option<string>
    decreases |names|
  {
    if names == [] then None
    else if names[0].0 == 0 then Some(names[0].1)
    else NameAtIndexZero(names[1..])
  }

  /** getNamedParams as written: the lone argument's name is looked up under index 0. */
  function NamedParamsAsWritten(res: Resolution, useActualParamName: bool, args: Option<seq<Obj>>): Obj
    requires args.Some? ==> forall i :: 0 <= i < |res.names| ==> res.names[i].0 < |args.value|
  {
    if args.None? || |res.names| == 0 then Null
    else if !res.hasParamAnnotation && |res.names| == 1 then
      WrapToMapIfCollection(args.value[res.names[0].0], if useActualParamName then NameAtIndexZero(res.names) else None)
    else MapObj(ParamMapOf(res.names, args.value, |res.names|), true)
  }

  /**
   * A lone list parameter after a RowBounds: as written, the list is not
   * stored under its actual name, although it is when it comes first.
   */
  lemma LoneListNameLost()
    ensures var params := [MethodParameter(true, [], None), MethodParameter(false, [], Some("ids"))];
      var res := ResolutionOf(params, true);
      var args := Some([Null, ListObj([])]);
      && res == Resolution([(1, "ids")], false)
      && "ids" !in NamedParamsAsWritten(res, true, args).entries
      && NamedParams(res, true, args).entries["ids"] == ListObj([])
  {
    var params := [MethodParameter(true, [], None), MethodParameter(false, [], Some("ids"))];
    assert params[..1][..0] == [];
    assert NamesOf(params[..1], true) == [];
    assert !AnyParamAnnotation(params);
  }

  /** A lone unannotated collection or array argument is also stored under its name when actual names are in use. */
  lemma {:induction false} LoneCollectionKeepsName(res: Resolution, args: seq<Obj>)
    requires forall i :: 0 <= i < |res.names| ==> res.names[i].0 < |args|
    requires !res.hasParamAnnotation && |res.names| == 1
    requires var a := args[res.names[0].0]; a.ListObj? || a.CollectionObj? || a.ArrayObj?
    ensures var r := NamedParams(res, true, Some(args));
      r.MapObj? && res.names[0].1 in r.entries && r.entries[res.names[0].1] == args[res.names[0].0]
  {
  }

  /**
   * ParamNameResolver: the names are fixed at construction; a call's
   * arguments are then named by them.
   */
  class ParamNameResolver {
    const useActualParamName: bool
    const paramCount: nat
    const names: seq<(nat, string)>
    const hasParamAnnotation: bool

    ghost predicate Valid() {
      AscendingKeys(names, paramCount)
    }

    constructor (params: seq<MethodParameter>, useActualParamName: bool)
      ensures Valid() && this.useActualParamName == useActualParamName && paramCount == |params|
      ensures Resolution(names, hasParamAnnotation) == ResolutionOf(params, useActualParamName)
    {
      this.useActualParamName := useActualParamName;
      paramCount := |params|;
      var n, h := ResolveNames(params, useActualParamName);
      names := n;
      hasParamAnnotation := h;
      NamesByIndex(params, useActualParamName);
    }

    /** getNames: the names in ascending argument-index order. */
    function GetNames(): (r: seq<string>)
      ensures |r| == |names| && forall i :: 0 <= i < |names| ==> r[i] == names[i].1
    {
      seq(|names|, i requires 0 <= i < |names| => names[i].1)
    }

    /** getNamedParams: null, the lone (possibly wrapped) argument, or a ParamMap. */
    method GetNamedParams(args: Option<seq<Obj>>) returns (r: Obj)
      requires Valid() && (args.Some? ==> |args.value| == paramCount)
      ensures r == NamedParams(Resolution(names, hasParamAnnotation), useActualParamName, args)
      ensures names == [] || names[0].0 == 0 ==>
        r == NamedParamsAsWritten(Resolution(names, hasParamAnnotation), useActualParamName, args)
    {
      if args.None? || |names| == 0 {
        return Null;
      } else if !hasParamAnnotation && |names| == 1 {
        var value := args.value[names[0].0];
        return WrapToMapIfCollection(value, if useActualParamName then Some(names[0].1) else None);
      }
      var a := args.value;
      var param: map<string, Obj> := map[];
      var i := 0;
      while i < |names|
        invariant 0 <= i <= |names|
        invariant param == ParamMapOf(names, a, i)
      {
        var (index, name) := names[i];
        param := param[name := a[index]];
        var genericParamName := GenericNamePrefix + NatToString(i + 1);
        if genericParamName !in NameSet(names) {
          param := param[genericParamName := a[index]];
        }
        i := i + 1;
      }
      r := MapObj(param, true);
    }
  }
}
