/**
 * The database loader of src/database.rs: merging the sources in push order,
 * building the parameter map with its parent and processor indexes, the lazy
 * cache behind `load`/`reload`, and the getters of the loaded database.
 */
module Database {
  import opened Wrappers
  import opened Text
  import opened Toml
  import opened Parameters
  import opened Sources

  // ---------------------------------------------------------------- processors and parents

  const ProcessorNames: set<String> := {"kernel", "systemd", "dracut", "initramfs-tools", "plymouth", "grub"}

  /** `parse_processor`: six names, fixed minimum versions, anything else a format error. */
  function ParseProcessor(s: String): (r: Result<ParameterProcessor, DatabaseError>)
    ensures r.Ok? <==> s in ProcessorNames
    ensures r.Err? ==> r.error == FormatError("Unknown processor: " + s)
    ensures r == Ok(Systemd("219")) <==> s == "systemd"
    ensures r == Ok(Dracut("011")) <==> s == "dracut"
  {
    match s
    case "kernel" => Ok(Kernel)
    case "systemd" => Ok(Systemd("219"))
    case "dracut" => Ok(Dracut("011"))
    case "initramfs-tools" => Ok(InitramfsTools)
    case "plymouth" => Ok(Plymouth)
    case "grub" => Ok(Grub)
    case _ => Err(FormatError("Unknown processor: " + s))
  }

  /** The name a processor is written with in a definition file. */
  function ProcessorName(p: ParameterProcessor): String
  {
    match p
    case Kernel => "kernel"
    case Systemd(_) => "systemd"
    case Dracut(_) => "dracut"
    case InitramfsTools => "initramfs-tools"
    case Plymouth => "plymouth"
    case Grub => "grub"
  }

  /** Parsing is the inverse of naming, on the processors it can produce. */
  lemma ParseProcessorInverse(s: String, p: ParameterProcessor)
    ensures ParseProcessor(s) == Ok(p) ==> ProcessorName(p) == s
    ensures ParseProcessor(ProcessorName(p)) == Ok(p) <==>
              (p.Systemd? ==> p.minVersion == "219") && (p.Dracut? ==> p.minVersion == "011")
  {
  }

  /** `get_parent_parameter`: everything before the rightmost `/`. */
  function ParentName(name: String): (r: Option<String>)
    ensures r.None? <==> '/' !in name
    ensures r.Some? ==> |r.value| < |name| && name[..|r.value|] == r.value && name[|r.value|] == '/'
                        && '/' !in name[|r.value| + 1..]
  {
    if name == [] then None
    else if name[|name| - 1] == '/' then Some(name[..|name| - 1])
    else
      var r := ParentName(name[..|name| - 1]);
      assert forall k :: 0 <= k < |name| - 1 ==> name[..|name| - 1][k] == name[k];
      r
  }

  /** The parent of `parent/child` is `parent` whenever the child has no `/`: `a/b/c` has parent `a/b`. */
  lemma {:induction false} ParentOfJoin(parent: String, child: String)
    requires '/' !in child
    ensures ParentName(parent + "/" + child) == Some(parent)
    decreases |child|
  {
    if child == [] {
      assert (parent + "/" + child)[..|parent|] == parent;
    } else {
      var shorter := child[..|child| - 1];
      var c := child[|child| - 1];
      assert '/' !in shorter by {
        assert forall k :: 0 <= k < |shorter| ==> shorter[k] == child[k];
      }
      assert parent + "/" + child == (parent + "/" + shorter) + [c];
      ParentOfJoin(parent, shorter);
      ParentSkipsLast(parent + "/" + shorter, c);
    }
  }

  lemma ParentSkipsLast(s: String, c: char)
    requires c != '/'
    ensures ParentName(s + [c]) == ParentName(s)
  {
    assert (s + [c])[..|s|] == s;
  }

  // ---------------------------------------------------------------- one parameter

  /** The three `convert_*` helpers, which the library leaves as `todo!()`: given as functions. */
  datatype Converters = Converters(
    distributions: Option<map<String, RawDistributionSupport>> -> Result<map<String, DistributionSupport>, DatabaseError>,
    examples: Option<RawExamples> -> Result<Examples, DatabaseError>,
    documentation: Option<RawDocumentationLinks> -> Result<Option<DocumentationLinks>, DatabaseError>)

  /**
   * `convert_raw_parameter`: the processor is parsed first, then the three
   * conversions run in field order; the first error wins. The versions record is not used.
   */
  function ConvertRawParameter(conv: Converters, raw: RawDefinition, versions: Option<RawVersions>)
    : (r: Result<Parameter, DatabaseError>)
    ensures ParseProcessor(raw.processor).Err? ==> r == Err(ParseProcessor(raw.processor).error)
    ensures r.Ok? <==> ParseProcessor(raw.processor).Ok? && conv.distributions(raw.distributions).Ok?
                       && conv.examples(raw.examples).Ok? && conv.documentation(raw.documentation).Ok?
    ensures r.Ok? ==> r.value.name == raw.name && r.value.processor == ParseProcessor(raw.processor).value
                      && r.value.description == raw.description
                      && r.value.deprecated == (raw.deprecated == Some(true))
                      && r.value.selectors == (if raw.selectors.Some? then raw.selectors.value else [])
                      && r.value.syntax == SyntaxDefinition(raw.syntax.validatorType, raw.syntax.format, raw.syntax.config)
                      && r.value.distributions == conv.distributions(raw.distributions).value
                      && r.value.examples == conv.examples(raw.examples).value
                      && r.value.documentation == conv.documentation(raw.documentation).value
  {
    var processor :- ParseProcessor(raw.processor);
    var distributions :- conv.distributions(raw.distributions);
    var examples :- conv.examples(raw.examples);
    var documentation :- conv.documentation(raw.documentation);
    Ok(Parameter(
      raw.name, processor, raw.description,
      if raw.deprecated.Some? then raw.deprecated.value else false,
      if raw.selectors.Some? then raw.selectors.value else [],
      SyntaxDefinition(raw.syntax.validatorType, raw.syntax.format, raw.syntax.config),
      distributions, examples, documentation))
  }

  /** The definition and versions records kept after asking a run of sources. */
  datatype Found = Found(definition: Option<RawDefinition>, versions: Option<RawVersions>)

  /**
   * The sources asked in push order, each for the definition and then the
   * versions: a `Some` replaces what was kept, an error aborts.
   */
  function Scan(srcs: seq<Source>, name: String): (r: Result<Found, DatabaseError>)
    ensures r.Ok? ==> AllAnswer(srcs, name)
    ensures srcs == [] ==> r == Ok(Found(None, None))
    decreases |srcs|
  {
    if srcs == [] then Ok(Found(None, None))
    else
      assert forall i :: 0 <= i < |srcs| - 1 ==> srcs[..|srcs| - 1][i] == srcs[i];
      match Scan(srcs[..|srcs| - 1], name)
      case Err(e) => Err(e)
      case Ok(kept) =>
        var last := srcs[|srcs| - 1];
        match GetDefinition(last, name)
        case Err(e) => Err(e)
        case Ok(d) =>
          match GetVersions(last, name)
          case Err(e) => Err(e)
          case Ok(v) =>
            Ok(Found(if d.Some? then d else kept.definition, if v.Some? then v else kept.versions))
  }

  predicate AllAnswer(srcs: seq<Source>, name: String)
  {
    forall i :: 0 <= i < |srcs| ==> GetDefinition(srcs[i], name).Ok? && GetVersions(srcs[i], name).Ok?
  }

  /** The scan succeeds exactly when every source answers both questions without error. */
  lemma {:induction false} ScanSucceeds(srcs: seq<Source>, name: String)
    ensures Scan(srcs, name).Ok? <==> AllAnswer(srcs, name)
    decreases |srcs|
  {
    if srcs != [] {
      var init := srcs[..|srcs| - 1];
      ScanSucceeds(init, name);
      assert forall i :: 0 <= i < |init| ==> init[i] == srcs[i];
    }
  }

  /** One more source: the scan of the shorter run, then this source's two answers. */
  lemma ScanStep(srcs: seq<Source>, name: String)
    requires srcs != [] && Scan(srcs, name).Ok?
    ensures var n := |srcs| - 1;
            Scan(srcs[..n], name).Ok? && GetDefinition(srcs[n], name).Ok? && GetVersions(srcs[n], name).Ok?
    ensures var n := |srcs| - 1;
            var kept := Scan(srcs[..n], name).value;
            var d := GetDefinition(srcs[n], name).value;
            var v := GetVersions(srcs[n], name).value;
            Scan(srcs, name).value == Found(if d.Some? then d else kept.definition, if v.Some? then v else kept.versions)
  {
  }

  /** No definition is kept exactly when no source has one. */
  lemma {:induction false} ScanNoDefinition(srcs: seq<Source>, name: String)
    requires Scan(srcs, name).Ok?
    ensures Scan(srcs, name).value.definition.None? <==> forall i :: 0 <= i < |srcs| ==> GetDefinition(srcs[i], name) == Ok(None)
    decreases |srcs|
  {
    if srcs != [] {
      var n := |srcs| - 1;
      var init := srcs[..n];
      ScanStep(srcs, name);
      ScanNoDefinition(init, name);
      assert forall i :: 0 <= i < n ==> init[i] == srcs[i];
      assert GetDefinition(srcs[n], name) == Ok(GetDefinition(srcs[n], name).value);
    }
  }

  /** Source `i` answers `x` and no later source has a definition. */
  predicate LastWithDefinition(srcs: seq<Source>, name: String, i: int, x: Option<RawDefinition>)
  {
    0 <= i < |srcs| && GetDefinition(srcs[i], name) == Ok(x)
    && forall j :: i < j < |srcs| ==> GetDefinition(srcs[j], name) == Ok(None)
  }

  /** The kept definition is the one of the last source that has one. */
  lemma {:induction false} ScanLastDefinition(srcs: seq<Source>, name: String)
    requires Scan(srcs, name).Ok?
    ensures var kept := Scan(srcs, name).value.definition;
            kept.Some? ==> exists i :: LastWithDefinition(srcs, name, i, kept)
    decreases |srcs|
  {
    if srcs != [] {
      var n := |srcs| - 1;
      var init := srcs[..n];
      ScanStep(srcs, name);
      var kept := Scan(init, name).value.definition;
      var x := GetDefinition(srcs[n], name).value;
      if x.Some? {
        assert LastWithDefinition(srcs, name, n, Scan(srcs, name).value.definition);
      } else if kept.Some? {
        ScanLastDefinition(init, name);
        var i :| LastWithDefinition(init, name, i, kept);
        assert forall j :: i < j < n ==> GetDefinition(srcs[j], name) == GetDefinition(init[j], name);
        assert LastWithDefinition(srcs, name, i, kept);
      }
    }
  }

  /** No versions record is kept exactly when no source has one. */
  lemma {:induction false} ScanNoVersions(srcs: seq<Source>, name: String)
    requires Scan(srcs, name).Ok?
    ensures Scan(srcs, name).value.versions.None? <==> forall i :: 0 <= i < |srcs| ==> GetVersions(srcs[i], name) == Ok(None)
    decreases |srcs|
  {
    if srcs != [] {
      var n := |srcs| - 1;
      var init := srcs[..n];
      ScanStep(srcs, name);
      ScanNoVersions(init, name);
      assert forall i :: 0 <= i < n ==> init[i] == srcs[i];
      assert GetVersions(srcs[n], name) == Ok(GetVersions(srcs[n], name).value);
    }
  }

  /** Source `i` answers `x` and no later source has a versions record. */
  predicate LastWithVersions(srcs: seq<Source>, name: String, i: int, x: Option<RawVersions>)
  {
    0 <= i < |srcs| && GetVersions(srcs[i], name) == Ok(x)
    && forall j :: i < j < |srcs| ==> GetVersions(srcs[j], name) == Ok(None)
  }

  /** The kept versions record is the one of the last source that has one. */
  lemma {:induction false} ScanLastVersions(srcs: seq<Source>, name: String)
    requires Scan(srcs, name).Ok?
    ensures var kept := Scan(srcs, name).value.versions;
            kept.Some? ==> exists i :: LastWithVersions(srcs, name, i, kept)
    decreases |srcs|
  {
    if srcs != [] {
      var n := |srcs| - 1;
      var init := srcs[..n];
      ScanStep(srcs, name);
      var kept := Scan(init, name).value.versions;
      var x := GetVersions(srcs[n], name).value;
      if x.Some? {
        assert LastWithVersions(srcs, name, n, Scan(srcs, name).value.versions);
      } else if kept.Some? {
        ScanLastVersions(init, name);
        var i :| LastWithVersions(init, name, i, kept);
        assert forall j :: i < j < n ==> GetVersions(srcs[j], name) == GetVersions(init[j], name);
        assert LastWithVersions(srcs, name, i, kept);
      }
    }
  }

  /**
   * Last `Some` wins: the kept definition is the answer of the last source that has
   * one, and the versions record is chosen the same way, independently.
   */
  lemma ScanLastSome(srcs: seq<Source>, name: String)
    requires Scan(srcs, name).Ok?
    ensures var kept := Scan(srcs, name).value;
            (kept.definition.None? <==> forall i :: 0 <= i < |srcs| ==> GetDefinition(srcs[i], name) == Ok(None))
            && (kept.definition.Some? ==>
                  exists i :: 0 <= i < |srcs| && GetDefinition(srcs[i], name) == Ok(kept.definition)
                              && forall j :: i < j < |srcs| ==> GetDefinition(srcs[j], name) == Ok(None))
            && (kept.versions.None? <==> forall i :: 0 <= i < |srcs| ==> GetVersions(srcs[i], name) == Ok(None))
            && (kept.versions.Some? ==>
                  exists i :: 0 <= i < |srcs| && GetVersions(srcs[i], name) == Ok(kept.versions)
                              && forall j :: i < j < |srcs| ==> GetVersions(srcs[j], name) == Ok(None))
  {
    ScanNoDefinition(srcs, name);
    ScanLastDefinition(srcs, name);
    ScanNoVersions(srcs, name);
    ScanLastVersions(srcs, name);
  }

  /** `load_parameter`: the merged records converted, or nothing when no source defines the name. */
  function LoadSpec(conv: Converters, srcs: seq<Source>, name: String): (r: Result<Option<Parameter>, DatabaseError>)
    ensures Scan(srcs, name).Err? ==> r == Err(Scan(srcs, name).error)
    ensures Scan(srcs, name).Ok? && Scan(srcs, name).value.definition.None? ==> r == Ok(None)
    ensures r.Ok? && r.value.Some? ==>
              Scan(srcs, name).Ok? && Scan(srcs, name).value.definition.Some?
              && r.value.value.name == Scan(srcs, name).value.definition.value.name
  {
    match Scan(srcs, name)
    case Err(e) => Err(e)
    case Ok(Found(None, _)) => Ok(None)
    case Ok(Found(Some(def), versions)) =>
      match ConvertRawParameter(conv, def, versions)
      case Err(e) => Err(e)
      case Ok(p) => Ok(Some(p))
  }

  /** A name that no source defines loads as nothing, whatever the versions records say. */
  lemma UndefinedLoadsNothing(conv: Converters, srcs: seq<Source>, name: String)
    requires AllAnswer(srcs, name)
    requires forall i :: 0 <= i < |srcs| ==> GetDefinition(srcs[i], name) == Ok(None)
    ensures LoadSpec(conv, srcs, name) == Ok(None)
  {
    ScanSucceeds(srcs, name);
    ScanLastSome(srcs, name);
  }

  // ---------------------------------------------------------------- the whole database

  /** The set of names all sources list, in push order; the first listing error aborts. */
  function AllNames(srcs: seq<Source>): (r: Result<set<String>, DatabaseError>)
    ensures r.Ok? ==> forall i :: 0 <= i < |srcs| ==> ListParameters(srcs[i]).Ok?
    decreases |srcs|
  {
    if srcs == [] then Ok({})
    else
      assert forall i :: 0 <= i < |srcs| - 1 ==> srcs[..|srcs| - 1][i] == srcs[i];
      match AllNames(srcs[..|srcs| - 1])
      case Err(e) => Err(e)
      case Ok(names) =>
        match ListParameters(srcs[|srcs| - 1])
        case Err(e) => Err(e)
        case Ok(listed) => Ok(names + set n | n in listed)
  }

  /** A name is collected exactly when some source lists it. */
  lemma {:induction false} AllNamesListed(srcs: seq<Source>, n: String)
    requires AllNames(srcs).Ok?
    ensures n in AllNames(srcs).value <==>
              exists i :: 0 <= i < |srcs| && ListParameters(srcs[i]).Ok? && n in ListParameters(srcs[i]).value
    decreases |srcs|
  {
    if srcs != [] {
      var init := srcs[..|srcs| - 1];
      AllNamesListed(init, n);
      assert forall i :: 0 <= i < |init| ==> init[i] == srcs[i];
    }
  }

  datatype LoadedDatabase = LoadedDatabase(
    parameters: map<String, Parameter>,
    subparameterIndex: map<String, seq<String>>,
    processorIndex: map<ParameterProcessor, seq<String>>)

  predicate NoDuplicates(s: seq<String>)
  {
    forall i, j :: 0 <= i < j < |s| ==> s[i] != s[j]
  }

  /**
   * An index filled by pushing every name of `done` under its key: each list is
   * non-empty and repeats nothing, holds exactly the names with that key, and
   * every name with a key has its list.
   */
  ghost predicate IndexOver<K>(index: map<K, seq<String>>, done: set<String>, keyOf: String -> Option<K>)
  {
    (forall k :: k in index ==> index[k] != [] && NoDuplicates(index[k]))
    && (forall k, m :: k in index ==> (m in index[k] <==> m in done && keyOf(m) == Some(k)))
    && (forall m :: m in done && keyOf(m).Some? ==> keyOf(m).value in index)
  }

  /** `entry(k).or_insert_with(Vec::new).push(m)` */
  function Push<K>(index: map<K, seq<String>>, k: K, m: String): (r: map<K, seq<String>>)
    ensures r.Keys == index.Keys + {k}
  {
    index[k := (if k in index then index[k] else []) + [m]]
  }

  lemma IndexInsert<K>(index: map<K, seq<String>>, done: set<String>, keyOf: String -> Option<K>, m: String)
    requires IndexOver(index, done, keyOf) && m !in done
    ensures keyOf(m).None? ==> IndexOver(index, done + {m}, keyOf)
    ensures keyOf(m).Some? ==> IndexOver(Push(index, keyOf(m).value, m), done + {m}, keyOf)
  {
    if keyOf(m).Some? {
      var k := keyOf(m).value;
      var r := Push(index, k, m);
      var old_ := if k in index then index[k] else [];
      assert r[k] == old_ + [m];
      assert forall x :: x in old_ ==> x in done;
      assert NoDuplicates(r[k]) by {
        forall i, j | 0 <= i < j < |r[k]|
          ensures r[k][i] != r[k][j]
        {
          if j == |old_| {
            assert r[k][i] == old_[i];
          } else {
            assert r[k][i] == old_[i] && r[k][j] == old_[j];
          }
        }
      }
      assert forall x :: x in r[k] <==> x in old_ || x == m;
    }
  }

  /** The processor key of a name in the parameter map. */
  function ProcessorOf(parameters: map<String, Parameter>): String -> Option<ParameterProcessor>
  {
    m => if m in parameters then Some(parameters[m].processor) else None
  }

  /** The name is listed by some source and loads to a parameter. */
  predicate Loaded(conv: Converters, srcs: seq<Source>, names: set<String>, m: String)
  {
    m in names && LoadSpec(conv, srcs, m).Ok? && LoadSpec(conv, srcs, m).value.Some?
  }

  /** The build succeeds: every source lists without error and every listed name loads without error. */
  predicate BuildSucceeds(conv: Converters, srcs: seq<Source>)
  {
    AllNames(srcs).Ok? && forall m :: m in AllNames(srcs).value ==> LoadSpec(conv, srcs, m).Ok?
  }

  /** The error a failed build may report: the first listing error, or the load error of some listed name. */
  predicate BuildErrorOf(conv: Converters, srcs: seq<Source>, e: DatabaseError)
  {
    (AllNames(srcs).Err? && e == AllNames(srcs).error)
    || (AllNames(srcs).Ok? && exists m :: m in AllNames(srcs).value && LoadSpec(conv, srcs, m) == Err(e))
  }

  /** `db` is what `build_database` makes of these sources. */
  ghost predicate IsBuildOf(db: LoadedDatabase, conv: Converters, srcs: seq<Source>)
  {
    AllNames(srcs).Ok?
    && (forall m :: m in db.parameters <==> Loaded(conv, srcs, AllNames(srcs).value, m))
    && (forall m :: m in db.parameters ==> Some(db.parameters[m]) == LoadSpec(conv, srcs, m).value)
    && IndexOver(db.subparameterIndex, db.parameters.Keys, ParentName)
    && IndexOver(db.processorIndex, db.parameters.Keys, ProcessorOf(db.parameters))
  }

  // ---------------------------------------------------------------- getters

  /** `get_parameter` */
  function GetParameter(db: LoadedDatabase, name: String): (r: Option<Parameter>)
    ensures r.Some? <==> name in db.parameters
    ensures r.Some? ==> r.value == db.parameters[name]
  {
    if name in db.parameters then Some(db.parameters[name]) else None
  }

  /** `filter_map(|name| parameters.get(name))`: the present names' parameters, in list order. */
  function PresentParameters(names: seq<String>, parameters: map<String, Parameter>): (r: seq<Parameter>)
    ensures |r| <= |names|
    ensures (forall i :: 0 <= i < |names| ==> names[i] in parameters) ==> |r| == |names|
    ensures forall p :: p in r <==> exists i :: 0 <= i < |names| && names[i] in parameters && parameters[names[i]] == p
  {
    if names == [] then []
    else
      var rest := PresentParameters(names[1..], parameters);
      assert forall i :: 0 < i < |names| ==> names[i] == names[1..][i - 1];
      assert forall i :: 0 <= i < |names| - 1 ==> names[1..][i] == names[i + 1];
      if names[0] in parameters then [parameters[names[0]]] + rest else rest
  }

  /** The present parameters of a concatenation are those of each part, in order. */
  lemma {:induction false} PresentParametersConcat(a: seq<String>, b: seq<String>, parameters: map<String, Parameter>)
    ensures PresentParameters(a + b, parameters) == PresentParameters(a, parameters) + PresentParameters(b, parameters)
    decreases |a|
  {
    if a == [] {
      assert a + b == b;
    } else {
      PresentParametersConcat(a[1..], b, parameters);
      assert (a + b)[0] == a[0];
      assert (a + b)[1..] == a[1..] + b;
    }
  }

  /** One name contributes its parameter when it is stored, and nothing otherwise. */
  lemma PresentParametersSingle(name: String, parameters: map<String, Parameter>)
    ensures PresentParameters([name], parameters) == if name in parameters then [parameters[name]] else []
  {
    assert [name][1..] == [];
  }

  /** `get_subparameters`: empty for a parent that is not indexed. */
  function GetSubparameters(db: LoadedDatabase, parent: String): (r: seq<Parameter>)
    ensures parent !in db.subparameterIndex ==> r == []
  {
    if parent in db.subparameterIndex then PresentParameters(db.subparameterIndex[parent], db.parameters) else []
  }

  /** `parameters_by_processor` */
  function ParametersByProcessor(db: LoadedDatabase, processor: ParameterProcessor): (r: seq<Parameter>)
    ensures processor !in db.processorIndex ==> r == []
  {
    if processor in db.processorIndex then PresentParameters(db.processorIndex[processor], db.parameters) else []
  }

  /** `all_parameters`, as the set of values the iterator yields. */
  function AllParameters(db: LoadedDatabase): (r: set<Parameter>)
    ensures forall p :: p in r <==> exists m :: m in db.parameters && db.parameters[m] == p
  {
    db.parameters.Values
  }

  /**
   * In a built database a name is found exactly when some source lists it and the
   * merged definition loads; in particular a listed name that no source defines is absent.
   */
  lemma BuildLookup(db: LoadedDatabase, conv: Converters, srcs: seq<Source>, name: String)
    requires IsBuildOf(db, conv, srcs)
    ensures GetParameter(db, name).Some? <==> Loaded(conv, srcs, AllNames(srcs).value, name)
    ensures GetParameter(db, name).Some? ==> LoadSpec(conv, srcs, name) == Ok(GetParameter(db, name))
  {
  }

  /** A name missing from the parameters appears in neither index. */
  lemma UnloadedNotIndexed(db: LoadedDatabase, conv: Converters, srcs: seq<Source>, name: String)
    requires IsBuildOf(db, conv, srcs)
    requires !Loaded(conv, srcs, AllNames(srcs).value, name)
    ensures forall k :: k in db.subparameterIndex ==> name !in db.subparameterIndex[k]
    ensures forall p :: p in db.processorIndex ==> name !in db.processorIndex[p]
  {
    assert name !in db.parameters.Keys;
    NotIndexedOutside(db.subparameterIndex, db.parameters.Keys, ParentName, name);
    NotIndexedOutside(db.processorIndex, db.parameters.Keys, ProcessorOf(db.parameters), name);
  }

  /** An index over a set of names lists no name outside it. */
  lemma NotIndexedOutside<K>(index: map<K, seq<String>>, done: set<String>, keyOf: String -> Option<K>, name: String)
    requires IndexOver(index, done, keyOf) && name !in done
    ensures forall k :: k in index ==> name !in index[k]
  {
  }

  /** What an index filled over all loaded names gives back through `filter_map`. */
  lemma IndexedPresent<K>(index: map<K, seq<String>>, parameters: map<String, Parameter>, keyOf: String -> Option<K>,
                          k: K, p: Parameter)
    requires IndexOver(index, parameters.Keys, keyOf)
    ensures forall m :: m in parameters && keyOf(m).Some? ==> keyOf(m).value in index && m in index[keyOf(m).value]
    ensures k in index ==>
              (p in PresentParameters(index[k], parameters) <==>
               exists m :: m in parameters && keyOf(m) == Some(k) && parameters[m] == p)
    ensures k !in index ==> forall m :: m in parameters ==> keyOf(m) != Some(k)
    ensures k in index ==> |PresentParameters(index[k], parameters)| == |index[k]|
  {
    if k in index {
      var names := index[k];
      assert forall i :: 0 <= i < |names| ==> names[i] in names;
      if exists m :: m in parameters && keyOf(m) == Some(k) && parameters[m] == p {
        var m :| m in parameters && keyOf(m) == Some(k) && parameters[m] == p;
        var i :| 0 <= i < |names| && names[i] == m;
      }
    }
  }

  /**
   * Every loaded name with a parent is indexed under that parent, loaded or not,
   * and `get_subparameters` yields exactly the parameters of the loaded names below it,
   * one per indexed child.
   */
  lemma SubparametersOfBuild(db: LoadedDatabase, conv: Converters, srcs: seq<Source>, parent: String, p: Parameter)
    requires IsBuildOf(db, conv, srcs)
    ensures forall m :: m in db.parameters && ParentName(m).Some? ==>
              ParentName(m).value in db.subparameterIndex && m in db.subparameterIndex[ParentName(m).value]
    ensures p in GetSubparameters(db, parent) <==>
              exists m :: m in db.parameters && ParentName(m) == Some(parent) && db.parameters[m] == p
    ensures parent in db.subparameterIndex ==> |GetSubparameters(db, parent)| == |db.subparameterIndex[parent]|
  {
    IndexedPresent(db.subparameterIndex, db.parameters, ParentName, parent, p);
  }

  /** `parameters_by_processor` yields exactly the loaded parameters stored under that full processor value. */
  lemma ProcessorIndexOfBuild(db: LoadedDatabase, conv: Converters, srcs: seq<Source>, processor: ParameterProcessor, p: Parameter)
    requires IsBuildOf(db, conv, srcs)
    ensures forall m :: m in db.parameters ==>
              db.parameters[m].processor in db.processorIndex && m in db.processorIndex[db.parameters[m].processor]
    ensures p in ParametersByProcessor(db, processor) <==>
              exists m :: m in db.parameters && db.parameters[m] == p && p.processor == processor
  {
    var keyOf := ProcessorOf(db.parameters);
    assert forall m :: m in db.parameters ==> keyOf(m) == Some(db.parameters[m].processor);
    IndexedPresent(db.processorIndex, db.parameters, keyOf, processor, p);
  }

  // ---------------------------------------------------------------- the loader

  class DatabaseLoader {
    var sources: seq<Source>
    var cache: Option<LoadedDatabase>
    /** How many of the sources the cached database was built from. */
    ghost var cachedFrom: nat
    const converters: Converters

    /** A cached database is the build of the sources present when it was made. */
    ghost predicate Valid()
      reads this
    {
      cache.Some? ==> cachedFrom <= |sources| && IsBuildOf(cache.value, converters, sources[..cachedFrom])
    }

    /** `new` */
    constructor (converters: Converters)
      ensures sources == [] && cache == None && this.converters == converters
      ensures Valid()
    {
      sources := [];
      cache := None;
      cachedFrom := 0;
      this.converters := converters;
    }

    /** Pushing a source; a database already cached is kept and does not see it. */
    method WithSource(src: Source)
      requires Valid()
      modifies this
      ensures sources == old(sources) + [src] && cache == old(cache)
      ensures Valid()
    {
      if cache.Some? {
        assert (sources + [src])[..cachedFrom] == sources[..cachedFrom];
      }
      sources := sources + [src];
    }

    /** `with_filesystem`: the source is pushed only when the root path exists. */
    method WithFilesystem(rootPath: String, found: Option<Node>, decoders: Decoders) returns (r: Result<(), DatabaseError>)
      requires Valid()
      modifies this
      ensures found.None? ==> r == Err(LoadError("Database path does not exist: " + DebugPath(rootPath)))
                              && sources == old(sources)
      ensures found.Some? ==> r == Ok(()) && sources == old(sources) + [Filesystem(rootPath, found.value, decoders)]
      ensures cache == old(cache)
      ensures Valid()
    {
      var fs := NewFilesystem(rootPath, found, decoders);
      if fs.Err? {
        return Err(fs.error);
      }
      WithSource(fs.value);
      r := Ok(());
    }

    /** `load_parameter`: every source in push order, a later `Some` replacing the kept record. */
    method LoadParameter(name: String) returns (r: Result<Option<Parameter>, DatabaseError>)
      ensures r == LoadSpec(converters, sources, name)
    {
      var definition: Option<RawDefinition> := None;
      var versions: Option<RawVersions> := None;
      var i := 0;
      while i < |sources|
        invariant 0 <= i <= |sources|
        invariant Scan(sources[..i], name) == Ok(Found(definition, versions))
      {
        assert sources[..i + 1][..i] == sources[..i];
        var def := GetDefinition(sources[i], name);
        if def.Err? {
          ScanErrorPersists(sources, i + 1, name);
          return Err(def.error);
        }
        if def.value.Some? {
          definition := def.value;
        }
        var ver := GetVersions(sources[i], name);
        if ver.Err? {
          ScanErrorPersists(sources, i + 1, name);
          return Err(ver.error);
        }
        if ver.value.Some? {
          versions := ver.value;
        }
        i := i + 1;
      }
      assert sources[..i] == sources;
      if definition.Some? {
        var parameter := ConvertRawParameter(converters, definition.value, versions);
        if parameter.Err? {
          return Err(parameter.error);
        }
        return Ok(Some(parameter.value));
      }
      return Ok(None);
    }

    /** `build_database`: all names, then each name loaded, then the processor index. */
    method BuildDatabase() returns (r: Result<LoadedDatabase, DatabaseError>)
      ensures r.Ok? <==> BuildSucceeds(converters, sources)
      ensures r.Ok? ==> IsBuildOf(r.value, converters, sources)
      ensures r.Err? ==> BuildErrorOf(converters, sources, r.error)
    {
      var allNames := CollectNames();
      if allNames.Err? {
        return Err(allNames.error);
      }
      var loaded := LoadAll(allNames.value);
      if loaded.Err? {
        return Err(loaded.error);
      }
      var (parameters, subparameterIndex) := loaded.value;
      var processorIndex := BuildProcessorIndex(parameters);
      r := Ok(LoadedDatabase(parameters, subparameterIndex, processorIndex));
    }

    /** The first loop of `build_database`: every source's listing, into one set. */
    method CollectNames() returns (r: Result<set<String>, DatabaseError>)
      ensures r == AllNames(sources)
    {
      var allNames: set<String> := {};
      var i := 0;
      while i < |sources|
        invariant 0 <= i <= |sources|
        invariant AllNames(sources[..i]) == Ok(allNames)
      {
        assert sources[..i + 1][..i] == sources[..i];
        var listed := ListParameters(sources[i]);
        if listed.Err? {
          AllNamesErrorPersists(sources, i + 1);
          return Err(listed.error);
        }
        var j := 0;
        ghost var start := allNames;
        while j < |listed.value|
          invariant 0 <= j <= |listed.value|
          invariant allNames == start + set n | n in listed.value[..j]
        {
          assert listed.value[..j + 1] == listed.value[..j] + [listed.value[j]];
          allNames := allNames + {listed.value[j]};
          j := j + 1;
        }
        assert listed.value[..j] == listed.value;
        i := i + 1;
      }
      assert sources[..i] == sources;
      return Ok(allNames);
    }

    /** The second loop of `build_database`: each name loaded, the parent index filled alongside. */
    method LoadAll(allNames: set<String>) returns (r: Result<(map<String, Parameter>, map<String, seq<String>>), DatabaseError>)
      ensures r.Ok? <==> forall m :: m in allNames ==> LoadSpec(converters, sources, m).Ok?
      ensures r.Err? ==> exists m :: m in allNames && LoadSpec(converters, sources, m) == Err(r.error)
      ensures r.Ok? ==> var (parameters, subparameterIndex) := r.value;
                        (forall m :: m in parameters <==> Loaded(converters, sources, allNames, m))
                        && (forall m :: m in parameters ==> Some(parameters[m]) == LoadSpec(converters, sources, m).value)
                        && IndexOver(subparameterIndex, parameters.Keys, ParentName)
    {
      var parameters: map<String, Parameter> := map[];
      var subparameterIndex: map<String, seq<String>> := map[];
      var remaining := allNames;
      while remaining != {}
        invariant Loading(allNames, remaining, parameters, subparameterIndex)
        decreases |remaining|
      {
        var name :| name in remaining;
        var next := LoadOne(allNames, remaining, parameters, subparameterIndex, name);
        if next.Err? {
          return Err(next.error);
        }
        parameters, subparameterIndex := next.value.0, next.value.1;
        remaining := remaining - {name};
      }
      return Ok((parameters, subparameterIndex));
    }

    /** The second loop's progress: the names already taken have loaded, and the maps hold the loaded ones. */
    ghost predicate Loading(allNames: set<String>, remaining: set<String>,
                            parameters: map<String, Parameter>, subparameterIndex: map<String, seq<String>>)
      reads this
    {
      remaining <= allNames
      && (forall m :: m in allNames - remaining ==> LoadSpec(converters, sources, m).Ok?)
      && (forall m :: m in parameters <==> m in allNames - remaining && Loaded(converters, sources, allNames, m))
      && (forall m :: m in parameters ==> Some(parameters[m]) == LoadSpec(converters, sources, m).value)
      && IndexOver(subparameterIndex, parameters.Keys, ParentName)
    }

    /** One pass of the second loop: `name` loaded, stored when defined and pushed under its parent. */
    method LoadOne(allNames: set<String>, remaining: set<String>, parameters: map<String, Parameter>,
                   subparameterIndex: map<String, seq<String>>, name: String)
      returns (r: Result<(map<String, Parameter>, map<String, seq<String>>), DatabaseError>)
      requires Loading(allNames, remaining, parameters, subparameterIndex) && name in remaining
      ensures r.Err? ==> LoadSpec(converters, sources, name) == Err(r.error)
      ensures r.Ok? ==> Loading(allNames, remaining - {name}, r.value.0, r.value.1)
    {
      var loaded := LoadParameter(name);
      if loaded.Err? {
        return Err(loaded.error);
      }
      var index := subparameterIndex;
      if loaded.value.Some? {
        IndexInsert(index, parameters.Keys, ParentName, name);
        match ParentName(name) {
          case Some(parent) =>
            index := Push(index, parent, name);
          case None =>
        }
        LoadingStored(allNames, remaining, parameters, subparameterIndex, index, name, loaded.value.value);
        return Ok((parameters[name := loaded.value.value], index));
      }
      LoadingSkipped(allNames, remaining, parameters, index, name);
      return Ok((parameters, index));
    }

    /** A name that loads to a parameter joins the map and its index. */
    lemma LoadingStored(allNames: set<String>, remaining: set<String>, parameters: map<String, Parameter>,
                        oldIndex: map<String, seq<String>>, index: map<String, seq<String>>, name: String, p: Parameter)
      requires Loading(allNames, remaining, parameters, oldIndex) && name in remaining
      requires LoadSpec(converters, sources, name) == Ok(Some(p))
      requires IndexOver(index, parameters.Keys + {name}, ParentName)
      ensures Loading(allNames, remaining - {name}, parameters[name := p], index)
    {
      assert parameters[name := p].Keys == parameters.Keys + {name};
    }

    /** A name that loads to nothing changes neither map. */
    lemma LoadingSkipped(allNames: set<String>, remaining: set<String>, parameters: map<String, Parameter>,
                         index: map<String, seq<String>>, name: String)
      requires Loading(allNames, remaining, parameters, index) && name in remaining
      requires LoadSpec(converters, sources, name) == Ok(None)
      ensures Loading(allNames, remaining - {name}, parameters, index)
    {
    }

    /**
     * `load`: a cached database is returned unchanged; otherwise the database is
     * built and cached, and a failed build leaves the cache empty.
     */
    method Load() returns (r: Result<LoadedDatabase, DatabaseError>)
      requires Valid()
      modifies this
      ensures Valid()
      ensures sources == old(sources)
      ensures old(cache).Some? ==> r == Ok(old(cache).value) && cache == old(cache)
      ensures old(cache).None? ==> (r.Ok? <==> BuildSucceeds(converters, sources))
      ensures old(cache).None? && r.Ok? ==> IsBuildOf(r.value, converters, sources) && cache == Some(r.value)
      ensures old(cache).None? && r.Err? ==> BuildErrorOf(converters, sources, r.error) && cache == None
    {
      if cache.None? {
        var built := BuildDatabase();
        if built.Err? {
          return Err(built.error);
        }
        cache := Some(built.value);
        cachedFrom := |sources|;
        assert sources[..cachedFrom] == sources;
      }
      return Ok(cache.value);
    }

    /** `reload`: the cache is dropped and the database built from all current sources. */
    method Reload() returns (r: Result<LoadedDatabase, DatabaseError>)
      requires Valid()
      modifies this
      ensures Valid()
      ensures sources == old(sources)
      ensures r.Ok? <==> BuildSucceeds(converters, sources)
      ensures r.Ok? ==> IsBuildOf(r.value, converters, sources) && cache == Some(r.value)
      ensures r.Err? ==> BuildErrorOf(converters, sources, r.error) && cache == None
    {
      cache := None;
      r := Load();
    }
  }

  /** The last loop of `build_database`: every loaded name pushed under its processor. */
  method BuildProcessorIndex(parameters: map<String, Parameter>) returns (processorIndex: map<ParameterProcessor, seq<String>>)
    ensures IndexOver(processorIndex, parameters.Keys, ProcessorOf(parameters))
  {
    processorIndex := map[];
    var pending := parameters.Keys;
    ghost var keyOf := ProcessorOf(parameters);
    while pending != {}
      invariant pending <= parameters.Keys
      invariant IndexOver(processorIndex, parameters.Keys - pending, keyOf)
      decreases |pending|
    {
      var name :| name in pending;
      IndexInsert(processorIndex, parameters.Keys - pending, keyOf, name);
      assert keyOf(name) == Some(parameters[name].processor);
      processorIndex := Push(processorIndex, parameters[name].processor, name);
      assert parameters.Keys - pending + {name} == parameters.Keys - (pending - {name});
      pending := pending - {name};
    }
    assert parameters.Keys - pending == parameters.Keys;
  }

  /** Once a prefix of the sources fails to scan, so does every longer run, with the same error. */
  lemma {:induction false} ScanErrorPersists(srcs: seq<Source>, k: nat, name: String)
    requires k <= |srcs| && Scan(srcs[..k], name).Err?
    ensures Scan(srcs, name) == Scan(srcs[..k], name)
    decreases |srcs| - k
  {
    if k < |srcs| {
      assert srcs[..k + 1][..k] == srcs[..k];
      ScanErrorPersists(srcs, k + 1, name);
    } else {
      assert srcs[..k] == srcs;
    }
  }

  lemma {:induction false} AllNamesErrorPersists(srcs: seq<Source>, k: nat)
    requires k <= |srcs| && AllNames(srcs[..k]).Err?
    ensures AllNames(srcs) == AllNames(srcs[..k])
    decreases |srcs| - k
  {
    if k < |srcs| {
      assert srcs[..k + 1][..k] == srcs[..k];
      AllNamesErrorPersists(srcs, k + 1);
    } else {
      assert srcs[..k] == srcs;
    }
  }
}
