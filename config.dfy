/**
 * `Config`: the layered key/value store the swapper reads its settings from.
 * Hard-coded defaults, then the first configuration file that opens, then the
 * command-line arguments, each overriding the one before.
 */
module Config {
  import opened Builtins

  const DIR_KEY := "_dir"
  const FILE_KEY := "_file"
  const CONFIG_FILE_ARG := "config_file"

  /** What `json.load` makes of an opened file: a dict, or anything else (a decode error, a list, ...). */
  datatype JsonDoc = Object(entries: map<string, Value>) | NotAnObject

  /** What `open(p, 'r')` does: open the file, raise an OSError, or raise something else. */
  datatype Opened = Opened(doc: JsonDoc) | OsError | OtherError

  /** The file system as `Config` sees it: the home and working directories, `open`, and `Path.resolve`. */
  datatype ConfigFs = ConfigFs(home: string, cwd: string, open: Value -> Opened, resolve: string -> string)

  /** How the search for a configuration file ends. */
  datatype Search = Found(index: nat, doc: JsonDoc) | NoneOpened | Aborted(index: nat)

  /** The four places a configuration file is looked for, in order. */
  function Locations(args: map<string, Value>, baseDir: string, cwd: string): (ps: seq<Value>)
    ensures |ps| == 4
    ensures ps[0] == if CONFIG_FILE_ARG in args then args[CONFIG_FILE_ARG] else Str("")
    ensures ps[1] == Str(baseDir + "/config.json")
    ensures ps[2] == Str(cwd + "/config.json") && ps[3] == Str(cwd + "\\config.json")
  {
    [if CONFIG_FILE_ARG in args then args[CONFIG_FILE_ARG] else Str(""),
     Str(baseDir + "/config.json"),
     Str(cwd + "/config.json"),
     Str(cwd + "\\config.json")]
  }

  /** `_open_config` from position `i` on: the first path that opens wins, an OSError moves on. */
  function FirstOpen(paths: seq<Value>, open: Value -> Opened, i: nat): Search
    decreases |paths| - i
  {
    if i >= |paths| then NoneOpened
    else
      match open(paths[i])
      case Opened(doc) => Found(i, doc)
      case OsError => FirstOpen(paths, open, i + 1)
      case OtherError => Aborted(i)
  }

  lemma {:induction false} FirstOpenFrom(paths: seq<Value>, open: Value -> Opened, i: nat)
    requires i <= |paths|
    ensures var r := FirstOpen(paths, open, i);
            && (r.Found? ==> i <= r.index < |paths| && open(paths[r.index]) == Opened(r.doc)
                             && forall j :: i <= j < r.index ==> open(paths[j]) == OsError)
            && (r.Aborted? ==> i <= r.index < |paths| && open(paths[r.index]) == OtherError
                               && forall j :: i <= j < r.index ==> open(paths[j]) == OsError)
            && (r.NoneOpened? <==> forall j :: i <= j < |paths| ==> open(paths[j]) == OsError)
    decreases |paths| - i
  {
    if i < |paths| && open(paths[i]) == OsError {
      FirstOpenFrom(paths, open, i + 1);
    }
  }

  /** The search is first-fit: every earlier path failed with an OSError. */
  lemma FirstOpenFirstFit(paths: seq<Value>, open: Value -> Opened)
    ensures var r := FirstOpen(paths, open, 0);
            && (r.Found? ==> r.index < |paths| && open(paths[r.index]) == Opened(r.doc)
                             && forall j :: 0 <= j < r.index ==> open(paths[j]) == OsError)
            && (r.Aborted? ==> r.index < |paths| && open(paths[r.index]) == OtherError
                               && forall j :: 0 <= j < r.index ==> open(paths[j]) == OsError)
            && (r.NoneOpened? <==> forall j :: 0 <= j < |paths| ==> open(paths[j]) == OsError)
  {
    FirstOpenFrom(paths, open, 0);
  }

  /** `_open_config(paths)`. */
  method OpenConfig(paths: seq<Value>, open: Value -> Opened) returns (r: Search)
    ensures r == FirstOpen(paths, open, 0)
  {
    var i := 0;
    while i < |paths|
      invariant 0 <= i <= |paths|
      invariant FirstOpen(paths, open, 0) == FirstOpen(paths, open, i)
    {
      match open(paths[i])
      case Opened(doc) =>
        return Found(i, doc);
      case OtherError =>
        return Aborted(i);
      case OsError =>
        i := i + 1;
    }
    return NoneOpened;
  }

  /** `defaults()`: no hard-coded defaults. */
  function Defaults(): map<string, Value> {
    map[]
  }

  /** `{**defaults, **file, **args}`: every key of the three, the rightmost source winning. */
  function Merge(defaults: map<string, Value>, file: map<string, Value>, args: map<string, Value>)
    : (r: map<string, Value>)
    ensures r.Keys == defaults.Keys + file.Keys + args.Keys
    ensures forall k :: k in args ==> r[k] == args[k]
    ensures forall k :: k in file && k !in args ==> r[k] == file[k]
    ensures forall k :: k in defaults && k !in file && k !in args ==> r[k] == defaults[k]
  {
    defaults + file + args
  }

  /** `f"{Path.home()}/.{name}"`. */
  function BaseDir(name: string, fs: ConfigFs): string {
    fs.home + "/." + name
  }

  /**
   * The `conf` that `Config(name, args)` ends with: the merge when a file opened
   * and held a JSON object; `{}` when any step failed.
   */
  function InitialConf(name: string, args: map<string, Value>, fs: ConfigFs): map<string, Value> {
    match FirstOpen(Locations(args, BaseDir(name, fs), fs.cwd), fs.open, 0)
    case Found(_, Object(m)) => Merge(Defaults(), m, args)
    case _ => map[]
  }

  /** `from_args`: the arguments whose value is not None. */
  function DropUnset(ns: map<string, Value>): (args: map<string, Value>)
    ensures forall k :: k in args <==> k in ns && ns[k] != Null
    ensures forall k :: k in args ==> args[k] == ns[k]
  {
    map k | k in ns && ns[k] != Null :: ns[k]
  }

  /** Command-line arguments override the file, the file overrides nothing else, and an unset argument masks nothing. */
  lemma ConfPrecedence(name: string, ns: map<string, Value>, fs: ConfigFs, m: map<string, Value>)
    requires FirstOpen(Locations(DropUnset(ns), BaseDir(name, fs), fs.cwd), fs.open, 0).Found?
    requires FirstOpen(Locations(DropUnset(ns), BaseDir(name, fs), fs.cwd), fs.open, 0).doc == Object(m)
    ensures var conf := InitialConf(name, DropUnset(ns), fs);
            && conf.Keys == m.Keys + (set k | k in ns && ns[k] != Null)
            && (forall k :: k in ns && ns[k] != Null ==> conf[k] == ns[k])
            && (forall k :: k in m && (k !in ns || ns[k] == Null) ==> conf[k] == m[k])
  {
    var args := DropUnset(ns);
    assert args.Keys == (set k | k in ns && ns[k] != Null);
  }

  /**
   * Unless the search found a file and that file held a JSON object, `conf`
   * stays `{}`: no path opened, an open failed with an error other than an
   * OSError, or the file was not a JSON object.
   */
  lemma ConfEmptyWithoutFile(name: string, args: map<string, Value>, fs: ConfigFs)
    ensures var found := FirstOpen(Locations(args, BaseDir(name, fs), fs.cwd), fs.open, 0);
            !(found.Found? && found.doc.Object?) ==> InitialConf(name, args, fs) == map[]
    ensures var paths := Locations(args, BaseDir(name, fs), fs.cwd);
            (forall i :: 0 <= i < |paths| ==> fs.open(paths[i]) == OsError) ==> InitialConf(name, args, fs) == map[]
    ensures var paths := Locations(args, BaseDir(name, fs), fs.cwd);
            (exists i :: 0 <= i < |paths| && fs.open(paths[i]) == OtherError
                         && forall j :: 0 <= j < i ==> fs.open(paths[j]) == OsError) ==> InitialConf(name, args, fs) == map[]
  {
    var paths := Locations(args, BaseDir(name, fs), fs.cwd);
    FirstOpenFirstFit(paths, fs.open);
  }

  predicate IsPathKey(key: string) {
    EndsWith(key, DIR_KEY) || EndsWith(key, FILE_KEY)
  }

  /** `Path(attr).resolve()`: a TypeError for anything but a string or a path. */
  function ResolvePath(attr: Value, resolve: string -> string): Result<Value> {
    match attr
    case Str(s) => Ok(PathOf(resolve(s)))
    case PathOf(p) => Ok(PathOf(resolve(p)))
    case _ => Raise(TypeError)
  }

  /** `config[key]`. */
  function Lookup(conf: map<string, Value>, key: string, resolve: string -> string): (r: Value)
    ensures key !in conf ==> r == Null
    ensures key in conf && !IsPathKey(key) ==> r == conf[key]
    ensures key in conf && IsPathKey(key) && conf[key].Str? ==> r == PathOf(resolve(conf[key].s))
    ensures key in conf && IsPathKey(key) && conf[key].PathOf? ==> r == PathOf(resolve(conf[key].p))
    ensures key in conf && IsPathKey(key) && !conf[key].Str? && !conf[key].PathOf? ==> r == conf[key]
  {
    if key !in conf then Null
    else
      var attr := conf[key];
      if IsPathKey(key) then
        match ResolvePath(attr, resolve)
        case Ok(p) => p
        case Raise(_) => attr
      else attr
  }

  /**
   * `config[key] = value` as written: the warning for an existing key formats
   * `self.conf[value]`, which raises KeyError unless `value` is itself a key.
   */
  function SetItemAsWritten(conf: map<string, Value>, key: string, value: Value): (r: Result<map<string, Value>>)
    ensures r.Raise? <==> key in conf && !(value.Str? && value.s in conf)
    ensures r.Raise? ==> r.error == KeyError
    ensures r.Ok? ==> && r.value.Keys == conf.Keys + {key} && r.value[key] == value
                      && forall k :: k in conf && k != key ==> r.value[k] == conf[k]
  {
    if key in conf && !(value.Str? && value.s in conf) then Raise(KeyError)
    else Ok(conf[key := value])
  }

  /** Overwriting `region` with a new region name raises instead of storing it. */
  lemma SetItemOverwriteRaises()
    ensures SetItemAsWritten(map["region" := Str("us-west-1")], "region", Str("us-east-2")) == Raise(KeyError)
  {
  }

  /** `config[key] = value` as intended: store it, warning or not. */
  function SetItemIntended(conf: map<string, Value>, key: string, value: Value): (r: map<string, Value>)
    ensures r.Keys == conf.Keys + {key} && r[key] == value
    ensures forall k :: k in conf && k != key ==> r[k] == conf[k]
  {
    conf[key := value]
  }

  /** The intended assignment is what the written one does whenever that one does not raise. */
  lemma SetItemAgrees(conf: map<string, Value>, key: string, value: Value)
    ensures SetItemAsWritten(conf, key, value).Ok? ==> SetItemAsWritten(conf, key, value).value == SetItemIntended(conf, key, value)
    ensures key !in conf ==> SetItemAsWritten(conf, key, value) == Ok(SetItemIntended(conf, key, value))
  {
  }

  class Config {
    const name: string
    const baseDir: string
    const resolve: string -> string
    var conf: map<string, Value>

    /** `Config(name, args)`: search the configuration file, then merge. */
    constructor (name: string, args: map<string, Value>, fs: ConfigFs)
      ensures this.name == name && baseDir == BaseDir(name, fs) && resolve == fs.resolve
      ensures conf == InitialConf(name, args, fs)
    {
      this.name := name;
      baseDir := BaseDir(name, fs);
      resolve := fs.resolve;
      var found := OpenConfig(Locations(args, BaseDir(name, fs), fs.cwd), fs.open);
      match found
      case Found(_, Object(m)) =>
        conf := Merge(Defaults(), m, args);
      case _ =>
        conf := map[];
    }

    /** `Config.from_args(name, parsed)`. */
    static method FromArgs(name: string, ns: map<string, Value>, fs: ConfigFs) returns (c: Config)
      ensures fresh(c) && c.name == name && c.resolve == fs.resolve
      ensures c.conf == InitialConf(name, DropUnset(ns), fs)
    {
      c := new Config(name, DropUnset(ns), fs);
    }

    /** `config[key] = value`, with the warning's lookup corrected. */
    method Set(key: string, value: Value)
      modifies this
      ensures conf == SetItemIntended(old(conf), key, value)
    {
      conf := conf[key := value];
    }
  }
}
