/**
 * The catalog facade of src/catalog.rs: the parameter map with its parent index,
 * and the lookups over them. The `HashMap`'s iteration order is part of the
 * value: `order` lists every stored name once.
 */
module Catalog {
  import opened Wrappers
  import opened Text
  import opened Parameters
  import Database

  datatype ParameterCatalog = ParameterCatalog(
    parameters: map<String, Parameter>,
    subparameterIndex: map<String, seq<String>>,
    order: seq<String>)

  /** The iteration order visits every stored name exactly once. */
  predicate OrderCovers(c: ParameterCatalog)
  {
    Database.NoDuplicates(c.order)
    && (forall i :: 0 <= i < |c.order| ==> c.order[i] in c.parameters)
    && (forall m :: m in c.parameters ==> m in c.order)
  }

  type Catalog = c: ParameterCatalog | OrderCovers(c) witness ParameterCatalog(map[], map[], [])

  /** `filter`: the elements `keep` accepts, in their order. */
  function Filter<T(==,!new)>(xs: seq<T>, keep: T -> bool): (r: seq<T>)
    ensures forall x :: x in r <==> x in xs && keep(x)
    ensures IsSubsequence(r, xs)
  {
    if xs == [] then []
    else
      var rest := Filter(xs[1..], keep);
      assert xs == [xs[0]] + xs[1..];
      if keep(xs[0]) then
        var r := [xs[0]] + rest;
        assert r[1..] == rest;
        r
      else rest
  }

  /** Filtering a concatenation filters each part, so the kept elements keep their order. */
  lemma {:induction false} FilterConcat<T(!new)>(a: seq<T>, b: seq<T>, keep: T -> bool)
    ensures Filter(a + b, keep) == Filter(a, keep) + Filter(b, keep)
    decreases |a|
  {
    if a == [] {
      assert a + b == b;
    } else {
      FilterConcat(a[1..], b, keep);
      assert (a + b)[0] == a[0];
      assert (a + b)[1..] == a[1..] + b;
    }
  }

  /** One element is kept exactly when `keep` accepts it. */
  lemma FilterSingle<T(!new)>(x: T, keep: T -> bool)
    ensures Filter([x], keep) == if keep(x) then [x] else []
  {
    assert [x][1..] == [];
  }

  /** Every kept element occurs as often as in the input, and no other element occurs. */
  lemma {:induction false} FilterCounts<T(!new)>(xs: seq<T>, keep: T -> bool, x: T)
    ensures multiset(Filter(xs, keep))[x] == if keep(x) then multiset(xs)[x] else 0
    decreases |xs|
  {
    if xs != [] {
      FilterCounts(xs[1..], keep, x);
      assert xs == [xs[0]] + xs[1..];
      assert multiset(xs) == multiset{xs[0]} + multiset(xs[1..]);
    }
  }

  /** `parameters`: one element per stored name, in iteration order. */
  function AllParameters(c: Catalog): (r: seq<Parameter>)
    ensures |r| == |c.order| == |c.parameters|
    ensures forall i :: 0 <= i < |r| ==> r[i] == c.parameters[c.order[i]]
    ensures forall p :: p in r <==> p in c.parameters.Values
  {
    var r := Database.PresentParameters(c.order, c.parameters);
    OrderLength(c);
    PresentInOrder(c.order, c.parameters);
    r
  }

  /** A list without repeats that covers a map's keys has as many elements as the map. */
  lemma OrderLength(c: Catalog)
    ensures |c.order| == |c.parameters|
  {
    var keys := set i | 0 <= i < |c.order| :: c.order[i];
    assert keys == c.parameters.Keys;
    DistinctCount(c.order);
  }

  lemma {:induction false} DistinctCount(s: seq<String>)
    requires Database.NoDuplicates(s)
    ensures |set i | 0 <= i < |s| :: s[i]| == |s|
  {
    if s != [] {
      var init := s[..|s| - 1];
      assert Database.NoDuplicates(init) by {
        assert forall i :: 0 <= i < |init| ==> init[i] == s[i];
      }
      DistinctCount(init);
      var all := set i | 0 <= i < |s| :: s[i];
      var front := set i | 0 <= i < |init| :: init[i];
      assert all == front + {s[|s| - 1]} by {
        assert forall i :: 0 <= i < |init| ==> init[i] == s[i];
      }
      assert s[|s| - 1] !in front;
    }
  }

  lemma {:induction false} PresentInOrder(names: seq<String>, parameters: map<String, Parameter>)
    requires forall i :: 0 <= i < |names| ==> names[i] in parameters
    ensures forall i :: 0 <= i < |names| ==> Database.PresentParameters(names, parameters)[i] == parameters[names[i]]
  {
    if names != [] {
      PresentInOrder(names[1..], parameters);
    }
  }

  /** Each stored name contributes its parameter exactly once. */
  lemma EachStoredOnce(c: Catalog, name: String)
    requires name in c.parameters
    ensures exists i :: 0 <= i < |c.order| && c.order[i] == name && AllParameters(c)[i] == c.parameters[name]
    ensures forall i, j :: 0 <= i < |c.order| && 0 <= j < |c.order| && c.order[i] == name && c.order[j] == name ==> i == j
  {
  }

  /** `get_parameter`: an exact-name lookup. */
  function GetParameter(c: Catalog, name: String): (r: Option<Parameter>)
    ensures r.Some? <==> name in c.parameters
    ensures r.Some? ==> r.value == c.parameters[name] && r.value in AllParameters(c)
  {
    if name in c.parameters then Some(c.parameters[name]) else None
  }

  /** `get_subparameters`: the indexed children in index order, skipping names not stored. */
  function GetSubparameters(c: Catalog, parent: String): (r: seq<Parameter>)
    ensures parent !in c.subparameterIndex ==> r == []
    ensures parent in c.subparameterIndex ==>
              forall p :: p in r <==> exists i :: 0 <= i < |c.subparameterIndex[parent]|
                                                  && c.subparameterIndex[parent][i] in c.parameters
                                                  && c.parameters[c.subparameterIndex[parent][i]] == p
    ensures forall p :: p in r ==> p in AllParameters(c)
  {
    if parent in c.subparameterIndex then Database.PresentParameters(c.subparameterIndex[parent], c.parameters) else []
  }

  /** The children's parameters come in index order: what precedes a child in the index precedes its parameter. */
  lemma SubparametersInIndexOrder(c: Catalog, parent: String, before: seq<String>, child: String, after: seq<String>)
    requires parent in c.subparameterIndex && c.subparameterIndex[parent] == before + [child] + after
    ensures GetSubparameters(c, parent)
            == Database.PresentParameters(before, c.parameters)
               + (if child in c.parameters then [c.parameters[child]] else [])
               + Database.PresentParameters(after, c.parameters)
  {
    Database.PresentParametersConcat(before + [child], after, c.parameters);
    Database.PresentParametersConcat(before, [child], c.parameters);
    Database.PresentParametersSingle(child, c.parameters);
  }

  /** `get_applicable_parameters`, with `Parameter::is_applicable` (a `todo!()`) given as a function. */
  function GetApplicableParameters(c: Catalog, probe: SystemProbe, isApplicable: (Parameter, SystemProbe) -> bool)
    : (r: seq<Parameter>)
    ensures forall p :: p in r <==> p in AllParameters(c) && isApplicable(p, probe)
    ensures IsSubsequence(r, AllParameters(c))
  {
    Filter(AllParameters(c), p => isApplicable(p, probe))
  }

  /** Each applicable parameter occurs as often as in `parameters()`, and no other parameter occurs. */
  lemma ApplicableCounts(c: Catalog, probe: SystemProbe, isApplicable: (Parameter, SystemProbe) -> bool, p: Parameter)
    ensures multiset(GetApplicableParameters(c, probe, isApplicable))[p]
            == if isApplicable(p, probe) then multiset(AllParameters(c))[p] else 0
  {
    FilterCounts(AllParameters(c), q => isApplicable(q, probe), p);
  }
}
