/**
 * The library facade of src/lib.rs: combining the seven query conditions in
 * And or Or mode, filtering the catalog with it, and the two convenience
 * queries. The conditions themselves are `todo!()` in the library and are
 * given as functions.
 */
module KCmdlineApi {
  import opened Wrappers
  import opened Text
  import opened Parameters
  import opened Query
  import opened Catalog

  /** One condition check: what `check_*_condition` answers for this probe, parameter and query. */
  type Check = (SystemProbe, Parameter, QueryParameters) -> bool

  datatype Checks = Checks(
    name: Check,
    processor: Check,
    hardware: Check,
    applicability: Check,
    distribution: Check,
    deprecated: Check,
    flags: Check)

  datatype KCmdline = KCmdline(catalog: Catalog, probe: SystemProbe, checks: Checks)

  /** The seven condition results, in the order `matches_query` lists them. */
  function Conditions(k: KCmdline, p: Parameter, q: QueryParameters): (r: seq<bool>)
    ensures |r| == 7
  {
    var c := k.checks;
    [c.name(k.probe, p, q), c.processor(k.probe, p, q), c.hardware(k.probe, p, q),
     c.applicability(k.probe, p, q), c.distribution(k.probe, p, q), c.deprecated(k.probe, p, q),
     c.flags(k.probe, p, q)]
  }

  /** `iter().all(|&c| c)` */
  function All(xs: seq<bool>): (r: bool)
    ensures r <==> forall i :: 0 <= i < |xs| ==> xs[i]
  {
    if xs == [] then true
    else
      var rest := All(xs[1..]);
      assert forall i :: 0 < i < |xs| ==> xs[i] == xs[1..][i - 1];
      xs[0] && rest
  }

  /** `iter().any(|&c| c)` */
  function Any(xs: seq<bool>): (r: bool)
    ensures r <==> exists i :: 0 <= i < |xs| && xs[i]
  {
    if xs == [] then false
    else
      var rest := Any(xs[1..]);
      assert forall i :: 0 < i < |xs| ==> xs[i] == xs[1..][i - 1];
      assert forall i :: 0 <= i < |xs| - 1 ==> xs[1..][i] == xs[i + 1];
      xs[0] || rest
  }

  /** `matches_query`: all seven conditions in And mode, at least one in Or mode. */
  function MatchesQuery(k: KCmdline, p: Parameter, q: QueryParameters): (r: bool)
    ensures q.queryMode == And ==> (r <==> forall i :: 0 <= i < 7 ==> Conditions(k, p, q)[i])
    ensures q.queryMode == Or ==> (r <==> exists i :: 0 <= i < 7 && Conditions(k, p, q)[i])
  {
    match q.queryMode
    case And => All(Conditions(k, p, q))
    case Or => Any(Conditions(k, p, q))
  }

  /** With the same condition results, And mode accepts no parameter that Or mode rejects. */
  lemma AndImpliesOr(k: KCmdline, p: Parameter, q: QueryParameters)
    requires Conditions(k, p, q) == Conditions(k, p, q.(queryMode := Or))
    requires q.queryMode == And
    ensures MatchesQuery(k, p, q) ==> MatchesQuery(k, p, q.(queryMode := Or))
  {
    assert Conditions(k, p, q)[0] ==> Conditions(k, p, q.(queryMode := Or))[0];
  }

  /** `query_parameters`: the catalog's parameters the query matches, in catalog order. */
  function QueryParameters(k: KCmdline, q: QueryParameters): (r: seq<Parameter>)
    ensures forall p :: p in r <==> p in AllParameters(k.catalog) && MatchesQuery(k, p, q)
    ensures IsSubsequence(r, AllParameters(k.catalog))
  {
    Filter(AllParameters(k.catalog), p => MatchesQuery(k, p, q))
  }

  /** Each matching parameter occurs as often as in the catalog's `parameters()`; no other parameter occurs. */
  lemma QueryCounts(k: KCmdline, q: QueryParameters, p: Parameter)
    ensures multiset(QueryParameters(k, q))[p] == if MatchesQuery(k, p, q) then multiset(AllParameters(k.catalog))[p] else 0
  {
    FilterCounts(AllParameters(k.catalog), p' => MatchesQuery(k, p', q), p);
  }

  /** The query `find_parameters` runs: only `name` is set. */
  function NameQuery(pattern: String): (q: QueryParameters)
    ensures q.name == Some(Regex(pattern)) && IsEmptyQuery(q.(name := None))
  {
    DefaultQuery.(name := Some(Regex(pattern)))
  }

  /** `find_parameters`: the pattern must compile, since it is unwrapped. */
  function FindParameters(k: KCmdline, pattern: String, syntaxError: String -> Option<String>): (r: seq<Parameter>)
    requires syntaxError(pattern).None?
    ensures r == QueryParameters(k, NameQuery(pattern))
    ensures NameQuery(pattern) == WithNamePattern(New(), pattern, syntaxError).value
  {
    QueryParameters(k, NameQuery(pattern))
  }

  /** The query `parameters_for_pci_device` runs: only `pci_ids` is set, to the one pair. */
  function PciQuery(vendor: U16, device: U16): (q: QueryParameters)
    ensures q.pciIds == [(vendor, device)] && IsEmptyQuery(q.(pciIds := []))
  {
    DefaultQuery.(pciIds := [(vendor, device)])
  }

  /** `parameters_for_pci_device` */
  function ParametersForPciDevice(k: KCmdline, vendor: U16, device: U16): (r: seq<Parameter>)
    ensures r == QueryParameters(k, PciQuery(vendor, device))
    ensures forall p :: p in r <==> p in AllParameters(k.catalog) && forall i :: 0 <= i < 7 ==> Conditions(k, p, PciQuery(vendor, device))[i]
  {
    QueryParameters(k, PciQuery(vendor, device))
  }
}
