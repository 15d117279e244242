/**
 * The parameter sources of src/database.rs: the raw records a source hands
 * out, an abstract directory tree standing for the filesystem, the
 * `FilesystemDatabase` source over that tree, and a source given directly by
 * its answers (any other implementation of `ParameterSource`).
 */
module Sources {
  import opened Wrappers
  import opened Text
  import opened Toml
  import opened Parameters

  // ---------------------------------------------------------------- raw records

  datatype RawSyntax = RawSyntax(validatorType: String, format: String, config: Config)

  datatype RawDistributionSupport = RawDistributionSupport(
    minVersion: Option<String>,
    maxVersion: Option<String>,
    componentVersion: Option<String>,
    notes: Option<String>)

  datatype RawExamples = RawExamples(valid: seq<String>, invalid: seq<String>)

  datatype RawDocumentationLinks = RawDocumentationLinks(
    kernelOrg: Option<String>,
    manPages: seq<String>,
    distributionDocs: map<String, String>)

  /** `ParameterDefinitionRaw`: one `definition.toml`, as deserialised. */
  datatype RawDefinition = RawDefinition(
    name: String,
    processor: String,
    description: String,
    deprecated: Option<bool>,
    selectors: Option<seq<String>>,
    syntax: RawSyntax,
    distributions: Option<map<String, RawDistributionSupport>>,
    examples: Option<RawExamples>,
    documentation: Option<RawDocumentationLinks>)

  datatype RawVersionInfo = RawVersionInfo(
    introduced: Option<String>,
    commit: Option<String>,
    lastModified: Option<String>,
    lastModifiedCommit: Option<String>)

  datatype RawVendorVersion = RawVendorVersion(introduced: Option<String>, commit: Option<String>, notes: Option<String>)

  datatype RawComponentVersion = RawComponentVersion(name: String, version: String)

  /** `ParameterVersionsRaw`: one `versions.toml`, as deserialised. */
  datatype RawVersions = RawVersions(
    mainline: Option<RawVersionInfo>,
    vendors: Option<map<String, map<String, RawVendorVersion>>>,
    components: Option<map<String, RawComponentVersion>>)

  // ---------------------------------------------------------------- directory tree

  /**
   * What is at a path: a file whose read succeeds or fails with an I/O error text,
   * a directory with its entries in `read_dir` order, or a directory whose
   * `read_dir` fails.
   */
  datatype Node =
    | File(content: Result<String, String>)
    | Dir(entries: seq<Entry>)
    | UnreadableDir(error: String)

  /** One item of a `read_dir` iteration, or the error that iteration yields in its place. */
  datatype Entry =
    | Entry(name: String, node: Node)
    | BadEntry(error: String)

  /** The text of the I/O errors the model raises itself (Linux `errno` 20 and 21). */
  const NotADirectory: String := "Not a directory (os error 20)"
  const IsADirectory: String := "Is a directory (os error 21)"

  const ParametersDir: String := "parameters"
  const DefinitionFile: String := "definition.toml"
  const VersionsFile: String := "versions.toml"

  /** The node of the first entry called `name`; a file or an unreadable directory has none. */
  function ChildNamed(node: Node, name: String): (r: Option<Node>)
    ensures r.Some? <==> node.Dir? && exists i :: 0 <= i < |node.entries| && node.entries[i].Entry? && node.entries[i].name == name
  {
    match node
    case Dir(entries) => FirstNamed(entries, name)
    case _ => None
  }

  function FirstNamed(entries: seq<Entry>, name: String): (r: Option<Node>)
    ensures r.Some? <==> exists i :: 0 <= i < |entries| && entries[i].Entry? && entries[i].name == name
    ensures r.Some? ==> exists i :: 0 <= i < |entries| && entries[i] == Entry(name, r.value)
  {
    if entries == [] then None
    else if entries[0].Entry? && entries[0].name == name then Some(entries[0].node)
    else
      var r := FirstNamed(entries[1..], name);
      assert forall i :: 0 < i < |entries| ==> entries[i] == entries[1..][i - 1];
      r
  }

  predicate HasChild(node: Node, name: String)
  {
    ChildNamed(node, name).Some?
  }

  /** Following a relative path one segment at a time: `Path::exists` on it. */
  function Lookup(node: Node, segs: seq<String>): (r: Option<Node>)
    ensures segs == [] ==> r == Some(node)
    decreases |segs|
  {
    if segs == [] then Some(node)
    else
      match ChildNamed(node, segs[0])
      case None => None
      case Some(child) => Lookup(child, segs[1..])
  }

  /** The segments a name contributes to a path, or None when it leaves the tree (absolute, or with `..`). */
  function NameSegments(name: String): (r: Option<seq<String>>)
    ensures r.Some? ==> forall i :: 0 <= i < |r.value| ==> r.value[i] != "" && r.value[i] != "." && '/' !in r.value[i]
  {
    if StartsWith(name, "/") then None
    else
      var parts := Split(name, '/');
      if exists i :: 0 <= i < |parts| && parts[i] == ".." then None
      else Some(PathSegments(parts))
  }

  /** Path components: empty and `.` segments name the same directory and are dropped. */
  function PathSegments(parts: seq<String>): (r: seq<String>)
    requires forall i :: 0 <= i < |parts| ==> '/' !in parts[i]
    ensures forall i :: 0 <= i < |r| ==> r[i] != "" && r[i] != "." && '/' !in r[i]
    ensures |r| <= |parts|
  {
    if parts == [] then []
    else if parts[0] == "" || parts[0] == "." then PathSegments(parts[1..])
    else [parts[0]] + PathSegments(parts[1..])
  }

  /** `PathBuf::push` on the text of a path: an absolute part replaces it, otherwise one `/` joins them. */
  function PathPush(base: String, part: String): String
  {
    if StartsWith(part, "/") then part
    else if base != [] && base[|base| - 1] != '/' then base + "/" + part
    else base + part
  }

  /** `{:?}` of a path. */
  function DebugPath(path: String): String
  {
    "\"" + EscapeDebug(path) + "\""
  }

  // ---------------------------------------------------------------- the recursive walk

  /** One more level of a parameter name: no separator in front of a top-level name. */
  function Extend(prefix: String, name: String): (r: String)
    ensures prefix == "" ==> r == name
    ensures prefix != "" ==> r == prefix + "/" + name
  {
    if prefix == "" then name else prefix + "/" + name
  }

  /**
   * The names `collect_parameters_recursive` pushes for `dir`: for every
   * subdirectory in listing order, its joined name when it holds a
   * `definition.toml`, then everything below it. An I/O error anywhere aborts.
   */
  function Collect(dir: Node, prefix: String): (r: Result<seq<String>, DatabaseError>)
    ensures dir.File? ==> r == Err(IoError(NotADirectory))
    ensures r.Err? ==> r.error.IoError?
    decreases dir
  {
    match dir
    case File(_) => Err(IoError(NotADirectory))
    case UnreadableDir(e) => Err(IoError(e))
    case Dir(entries) => CollectEntries(entries, prefix)
  }

  function CollectEntries(entries: seq<Entry>, prefix: String): (r: Result<seq<String>, DatabaseError>)
    ensures r.Err? ==> r.error.IoError?
    decreases entries
  {
    if entries == [] then Ok([])
    else
      match entries[0]
      case BadEntry(e) => Err(IoError(e))
      case Entry(name, node) =>
        if node.File? then CollectEntries(entries[1..], prefix)
        else
          var full := Extend(prefix, name);
          match Collect(node, full)
          case Err(e) => Err(e)
          case Ok(below) =>
            match CollectEntries(entries[1..], prefix)
            case Err(e) => Err(e)
            case Ok(rest) => Ok((if HasChild(node, DefinitionFile) then [full] else []) + below + rest)
  }

  /** `parameters` extended by a successful walk; an error of the walk replaces it. */
  function Appended(parameters: seq<String>, walk: Result<seq<String>, DatabaseError>): (r: Result<seq<String>, DatabaseError>)
    ensures walk.Err? ==> r == Err(walk.error)
    ensures walk.Ok? ==> r == Ok(parameters + walk.value)
  {
    match walk
    case Ok(xs) => Ok(parameters + xs)
    case Err(e) => Err(e)
  }

  /** `collect_parameters_recursive`, pushing onto the vector it is given. */
  method CollectParametersRecursive(dir: Node, prefix: String, parameters: seq<String>)
    returns (r: Result<seq<String>, DatabaseError>)
    ensures r == Appended(parameters, Collect(dir, prefix))
    decreases dir
  {
    match dir {
      case File(_) =>
        return Err(IoError(NotADirectory));
      case UnreadableDir(e) =>
        return Err(IoError(e));
      case Dir(entries) =>
        var acc := parameters;
        var i := 0;
        while i < |entries|
          invariant 0 <= i <= |entries|
          invariant Appended(acc, CollectEntries(entries[i..], prefix)) == Appended(parameters, CollectEntries(entries, prefix))
        {
          assert entries[i..][1..] == entries[i + 1..];
          assert entries[i..][0] == entries[i];
          match entries[i] {
            case BadEntry(e) =>
              return Err(IoError(e));
            case Entry(name, node) =>
              if !node.File? {
                var full := Extend(prefix, name);
                var before := acc;
                if HasChild(node, DefinitionFile) {
                  acc := acc + [full];
                }
                assert acc == before + (if HasChild(node, DefinitionFile) then [full] else []);
                var sub := CollectParametersRecursive(node, full, acc);
                if sub.Err? {
                  return Err(sub.error);
                }
                var below := Collect(node, full).value;
                match CollectEntries(entries[i + 1..], prefix) {
                  case Ok(rest) =>
                    assert sub.value + rest
                        == before + ((if HasChild(node, DefinitionFile) then [full] else []) + below + rest);
                  case Err(_) =>
                }
                acc := sub.value;
              }
          }
          i := i + 1;
        }
        assert entries[i..] == [];
        assert CollectEntries(entries[i..], prefix) == Ok([]);
        assert acc + [] == acc;
        return Ok(acc);
    }
  }

  /** The joined name of a path of segments below `prefix`. */
  function NameOf(prefix: String, segs: seq<String>): String
    decreases |segs|
  {
    if segs == [] then prefix else NameOf(Extend(prefix, segs[0]), segs[1..])
  }

  /**
   * An independent description of what the walk finds: following `segs` through
   * directory entries (any entry with the right name, in any position) reaches a
   * directory holding a `definition.toml`.
   */
  predicate DefinitionAt(node: Node, segs: seq<String>)
    decreases |segs|
  {
    if segs == [] then node.Dir? && HasChild(node, DefinitionFile)
    else
      node.Dir? && exists i :: 0 <= i < |node.entries| && EntryLeadsTo(node.entries[i], segs)
  }

  /** The entry is a directory called `segs[0]` and `segs[1..]` leads to a definition below it. */
  predicate EntryLeadsTo(e: Entry, segs: seq<String>)
    requires segs != []
    decreases |segs|, 0
  {
    e.Entry? && e.name == segs[0] && !e.node.File? && DefinitionAt(e.node, segs[1..])
  }

  /** Completeness of the walk: every directory with a definition below `dir` is listed. */
  lemma {:induction false} CollectComplete(dir: Node, prefix: String, segs: seq<String>)
    requires Collect(dir, prefix).Ok?
    requires segs != [] && DefinitionAt(dir, segs)
    ensures NameOf(prefix, segs) in Collect(dir, prefix).value
    decreases dir
  {
    var i :| 0 <= i < |dir.entries| && EntryLeadsTo(dir.entries[i], segs);
    EntriesComplete(dir.entries, prefix, i, segs);
  }

  lemma {:induction false} EntriesComplete(entries: seq<Entry>, prefix: String, i: nat, segs: seq<String>)
    requires CollectEntries(entries, prefix).Ok?
    requires i < |entries| && segs != [] && EntryLeadsTo(entries[i], segs)
    ensures NameOf(prefix, segs) in CollectEntries(entries, prefix).value
    decreases entries
  {
    match entries[0] {
      case BadEntry(e) =>
      case Entry(name, node) =>
        if node.File? {
          assert i > 0;
          assert entries[1..][i - 1] == entries[i];
          EntriesComplete(entries[1..], prefix, i - 1, segs);
        } else {
          var full := Extend(prefix, name);
          var below := Collect(node, full).value;
          var rest := CollectEntries(entries[1..], prefix).value;
          assert CollectEntries(entries, prefix).value
              == (if HasChild(node, DefinitionFile) then [full] else []) + below + rest;
          if i == 0 {
            assert NameOf(prefix, segs) == NameOf(full, segs[1..]);
            if segs[1..] == [] {
              assert HasChild(node, DefinitionFile);
            } else {
              CollectComplete(node, full, segs[1..]);
            }
          } else {
            assert entries[1..][i - 1] == entries[i];
            EntriesComplete(entries[1..], prefix, i - 1, segs);
          }
        }
    }
  }

  /** Soundness of the walk: every listed name is the path of a directory holding a definition. */
  lemma {:induction false} CollectSound(dir: Node, prefix: String, n: String)
    requires Collect(dir, prefix).Ok? && n in Collect(dir, prefix).value
    ensures exists segs :: segs != [] && DefinitionAt(dir, segs) && n == NameOf(prefix, segs)
    decreases dir
  {
    var i, segs := EntriesSound(dir.entries, prefix, n);
    assert EntryLeadsTo(dir.entries[i], segs);
  }

  lemma {:induction false} EntriesSound(entries: seq<Entry>, prefix: String, n: String) returns (i: nat, segs: seq<String>)
    requires CollectEntries(entries, prefix).Ok? && n in CollectEntries(entries, prefix).value
    ensures i < |entries| && segs != [] && EntryLeadsTo(entries[i], segs) && n == NameOf(prefix, segs)
    decreases entries
  {
    match entries[0] {
      case BadEntry(e) =>
      case Entry(name, node) =>
        if node.File? {
          var j, s := EntriesSound(entries[1..], prefix, n);
          assert entries[1..][j] == entries[j + 1];
          i, segs := j + 1, s;
        } else {
          var full := Extend(prefix, name);
          var below := Collect(node, full).value;
          var rest := CollectEntries(entries[1..], prefix).value;
          var here := if HasChild(node, DefinitionFile) then [full] else [];
          assert CollectEntries(entries, prefix).value == here + below + rest;
          if n in here {
            i, segs := 0, [name];
            assert NameOf(prefix, segs) == NameOf(full, []);
            assert DefinitionAt(node, segs[1..]);
          } else if n in below {
            CollectSound(node, full, n);
            var s :| s != [] && DefinitionAt(node, s) && n == NameOf(full, s);
            i, segs := 0, [name] + s;
            assert segs[1..] == s;
          } else {
            var j, s := EntriesSound(entries[1..], prefix, n);
            assert entries[1..][j] == entries[j + 1];
            i, segs := j + 1, s;
          }
        }
    }
  }

  // ---------------------------------------------------------------- sources

  /** `toml::from_str` for the two record kinds, given as functions: parsing TOML is not part of this model. */
  datatype Decoders = Decoders(
    definition: String -> Result<RawDefinition, String>,
    versions: String -> Result<RawVersions, String>)

  /**
   * A `ParameterSource`: either given by its answers (an absent key answers
   * `Ok(None)`, or `Ok([])` for subparameters), or a `FilesystemDatabase` whose root
   * path holds `root`.
   */
  datatype Source =
    | Mapped(
        listing: Result<seq<String>, DatabaseError>,
        definitions: map<String, Result<RawDefinition, DatabaseError>>,
        versions: map<String, Result<RawVersions, DatabaseError>>,
        children: map<String, Result<seq<String>, DatabaseError>>)
    | Filesystem(rootPath: String, root: Node, decoders: Decoders)

  /** `FilesystemDatabase::new`: the root path must exist. */
  function NewFilesystem(rootPath: String, found: Option<Node>, decoders: Decoders): (r: Result<Source, DatabaseError>)
    ensures found.None? ==> r == Err(LoadError("Database path does not exist: " + DebugPath(rootPath)))
    ensures found.Some? ==> r.Ok? && r.value.Filesystem? && r.value.root == found.value && r.value.rootPath == rootPath
  {
    match found
    case None => Err(LoadError("Database path does not exist: " + DebugPath(rootPath)))
    case Some(node) => Ok(Filesystem(rootPath, node, decoders))
  }

  /** `list_parameters`; a missing `parameters` directory lists nothing. */
  function ListParameters(src: Source): (r: Result<seq<String>, DatabaseError>)
    ensures src.Mapped? ==> r == src.listing
    ensures src.Filesystem? && ChildNamed(src.root, ParametersDir).None? ==> r == Ok([])
    ensures src.Filesystem? && r.Err? ==> r.error.IoError?
  {
    match src
    case Mapped(listing, _, _, _) => listing
    case Filesystem(_, root, _) =>
      match ChildNamed(root, ParametersDir)
      case None => Ok([])
      case Some(dir) => Collect(dir, "")
  }

  /** With a `parameters` directory the filesystem source lists exactly the directories holding a definition. */
  lemma FilesystemListing(src: Source, n: String)
    requires src.Filesystem?
    ensures ChildNamed(src.root, ParametersDir).None? ==> ListParameters(src) == Ok([])
    ensures ChildNamed(src.root, ParametersDir).Some? && ListParameters(src).Ok? ==>
              (n in ListParameters(src).value <==>
               exists segs :: segs != [] && DefinitionAt(ChildNamed(src.root, ParametersDir).value, segs) && n == NameOf("", segs))
  {
    if ChildNamed(src.root, ParametersDir).Some? && ListParameters(src).Ok? {
      var dir := ChildNamed(src.root, ParametersDir).value;
      if n in ListParameters(src).value {
        CollectSound(dir, "", n);
      }
      if exists segs :: segs != [] && DefinitionAt(dir, segs) && n == NameOf("", segs) {
        var segs :| segs != [] && DefinitionAt(dir, segs) && n == NameOf("", segs);
        CollectComplete(dir, "", segs);
      }
    }
  }

  /** `get_parameter_path(name).join(file)` as text. */
  function RecordPath(rootPath: String, name: String, file: String): String
  {
    PathPush(PathPush(PathPush(rootPath, ParametersDir), name), file)
  }

  /**
   * Reading one record file of a parameter: absent is `Ok(None)`, a failed read a
   * `LoadError`, a failed parse a `FormatError`, both naming the path.
   */
  function ReadRecord<T>(rootPath: String, root: Node, name: String, file: String, decode: String -> Result<T, String>)
    : (r: Result<Option<T>, DatabaseError>)
    ensures r.Err? ==> r.error.LoadError? || r.error.FormatError?
    ensures NameSegments(name).None? ==> r == Ok(None)
    ensures NameSegments(name).Some? && Lookup(root, [ParametersDir] + NameSegments(name).value + [file]).None? ==> r == Ok(None)
    ensures NameSegments(name).Some? && Lookup(root, [ParametersDir] + NameSegments(name).value + [file]).Some? ==>
              var node := Lookup(root, [ParametersDir] + NameSegments(name).value + [file]).value;
              (node.File? && node.content.Ok? ==>
                 (r.Ok? <==> decode(node.content.value).Ok?)
                 && (r.Ok? ==> r.value == Some(decode(node.content.value).value))
                 && (r.Err? ==> r.error.FormatError?))
              && (!(node.File? && node.content.Ok?) ==> r.Err? && r.error.LoadError?)
  {
    var path := RecordPath(rootPath, name, file);
    match NameSegments(name)
    case None => Ok(None)
    case Some(segs) =>
      match Lookup(root, [ParametersDir] + segs + [file])
      case None => Ok(None)
      case Some(File(Ok(text))) =>
        (match decode(text)
         case Ok(v) => Ok(Some(v))
         case Err(e) => Err(FormatError("Parse error in " + DebugPath(path) + ": " + e)))
      case Some(File(Err(e))) => Err(LoadError("Failed to read " + DebugPath(path) + ": " + e))
      case Some(_) => Err(LoadError("Failed to read " + DebugPath(path) + ": " + IsADirectory))
  }

  /** `get_parameter_definition` */
  function GetDefinition(src: Source, name: String): (r: Result<Option<RawDefinition>, DatabaseError>)
    ensures src.Mapped? && name !in src.definitions ==> r == Ok(None)
    ensures src.Mapped? && name in src.definitions ==>
              (r.Ok? <==> src.definitions[name].Ok?)
              && (r.Ok? ==> r.value == Some(src.definitions[name].value))
              && (r.Err? ==> r.error == src.definitions[name].error)
    ensures src.Filesystem? ==> r == ReadRecord(src.rootPath, src.root, name, DefinitionFile, src.decoders.definition)
  {
    match src
    case Mapped(_, definitions, _, _) => if name !in definitions then Ok(None)
      else
        (match definitions[name]
         case Ok(d) => Ok(Some(d))
         case Err(e) => Err(e))
    case Filesystem(rootPath, root, decoders) => ReadRecord(rootPath, root, name, DefinitionFile, decoders.definition)
  }

  /** `get_parameter_versions` */
  function GetVersions(src: Source, name: String): (r: Result<Option<RawVersions>, DatabaseError>)
    ensures src.Mapped? && name !in src.versions ==> r == Ok(None)
    ensures src.Mapped? && name in src.versions ==>
              (r.Ok? <==> src.versions[name].Ok?)
              && (r.Ok? ==> r.value == Some(src.versions[name].value))
              && (r.Err? ==> r.error == src.versions[name].error)
    ensures src.Filesystem? ==> r == ReadRecord(src.rootPath, src.root, name, VersionsFile, src.decoders.versions)
  {
    match src
    case Mapped(_, _, versions, _) => if name !in versions then Ok(None)
      else
        (match versions[name]
         case Ok(v) => Ok(Some(v))
         case Err(e) => Err(e))
    case Filesystem(rootPath, root, decoders) => ReadRecord(rootPath, root, name, VersionsFile, decoders.versions)
  }

  /** The subdirectories of a listed directory, joined to `parent`, in `read_dir` order. */
  function DirectoryChildren(entries: seq<Entry>, parent: String): (r: Result<seq<String>, DatabaseError>)
    ensures r.Err? <==> exists i :: 0 <= i < |entries| && entries[i].BadEntry?
    ensures r.Err? ==> r.error.IoError?
    ensures r.Ok? ==> forall n :: n in r.value <==>
              exists i :: 0 <= i < |entries| && entries[i].Entry? && !entries[i].node.File? && n == Extend(parent, entries[i].name)
  {
    if entries == [] then Ok([])
    else
      var rest := DirectoryChildren(entries[1..], parent);
      assert forall i :: 0 < i < |entries| ==> entries[i] == entries[1..][i - 1];
      assert forall i :: 0 <= i < |entries| - 1 ==> entries[1..][i] == entries[i + 1];
      match entries[0]
      case BadEntry(e) => Err(IoError(e))
      case Entry(name, node) =>
        if node.File? then rest
        else
          match rest
          case Ok(xs) => Ok([Extend(parent, name)] + xs)
          case Err(e) => Err(e)
  }

  /** `get_subparameters` of a source: for the filesystem, the subdirectories of the parent's directory. */
  function GetChildren(src: Source, parent: String): (r: Result<seq<String>, DatabaseError>)
    ensures src.Mapped? ==> r == if parent in src.children then src.children[parent] else Ok([])
    ensures src.Filesystem? && r.Err? ==> r.error.IoError?
    ensures src.Filesystem? && NameSegments(parent).Some? ==>
              Lookup(src.root, [ParametersDir] + NameSegments(parent).value).None? ==> r == Ok([])
  {
    match src
    case Mapped(_, _, _, children) => if parent in children then children[parent] else Ok([])
    case Filesystem(_, root, _) =>
      match NameSegments(parent)
      case None => Ok([])
      case Some(segs) =>
        match Lookup(root, [ParametersDir] + segs)
        case None => Ok([])
        case Some(File(_)) => Err(IoError(NotADirectory))
        case Some(UnreadableDir(e)) => Err(IoError(e))
        case Some(Dir(entries)) => DirectoryChildren(entries, parent)
  }

  /** A parameter's subparameters on the filesystem are its subdirectories, named below it. */
  lemma FilesystemChildren(src: Source, parent: String, n: String)
    requires src.Filesystem? && GetChildren(src, parent).Ok?
    requires NameSegments(parent).Some?
    requires Lookup(src.root, [ParametersDir] + NameSegments(parent).value).Some?
    ensures var dir := Lookup(src.root, [ParametersDir] + NameSegments(parent).value).value;
            dir.Dir? && (n in GetChildren(src, parent).value <==>
              exists i :: 0 <= i < |dir.entries| && dir.entries[i].Entry? && !dir.entries[i].node.File?
                          && n == Extend(parent, dir.entries[i].name))
  {
  }
}
