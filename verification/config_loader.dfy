/** The configuration store: one YAML document per configuration type,
    read by dotted key paths and updated in place. The files themselves
    are parameters; each is either a parsed document or absent. */
module ConfigLoader {
  import opened Wrappers
  import opened ConfigValue
  import opened PySemantics

  /** The store maps a configuration type ("model", "system", "hardware")
      to its document. */
  type Store = seq<Entry>

  /** `yaml.safe_load(f) or {}`: a missing or unreadable file (None) and an
      empty or falsy document both become an empty dictionary. */
  function LoadYaml(doc: Option<Value>): (r: Value)
    ensures doc.None? ==> r == Dict([])
    ensures doc.Some? && Truthy(doc.value) ==> r == doc.value
    ensures doc.Some? && !Truthy(doc.value) ==> r == Dict([])
    ensures Truthy(r) || r == Dict([])
  {
    match doc
    case None => Dict([])
    case Some(v) => if Truthy(v) then v else Dict([])
  }

  /** The three files, loaded in the order model, system, hardware. */
  function LoadAll(model: Option<Value>, system: Option<Value>, hardware: Option<Value>): (s: Store)
    ensures Keys(s) == {"model", "system", "hardware"} && UniqueKeys(s)
    ensures Lookup(s, "model") == Some(LoadYaml(model))
    ensures Lookup(s, "system") == Some(LoadYaml(system))
    ensures Lookup(s, "hardware") == Some(LoadYaml(hardware))
  {
    var s := [Entry("model", LoadYaml(model)), Entry("system", LoadYaml(system)), Entry("hardware", LoadYaml(hardware))];
    assert Keys(s[2..]) == {"hardware"};
    assert s[1..][1..] == s[2..];
    assert Keys(s[1..]) == {"system", "hardware"};
    assert "model"[0] != "system"[0] && "model"[0] != "hardware"[0] && "system"[0] != "hardware"[0];
    assert s[2..][1..] == [];
    assert UniqueKeys(s[2..]);
    assert UniqueKeys(s[1..]);
    s
  }

  /** `get_config`: an unknown type reads as an empty dictionary, and the
      store is not extended by the read. */
  function GetConfig(store: Store, configType: string): (r: Value)
    ensures configType !in Keys(store) ==> r == Dict([])
    ensures configType in Keys(store) ==> Entry(configType, r) in store
  {
    Lookup(store, configType).GetOr(Dict([]))
  }

  /** Walks `value = value[key]` for each key. None stands for the KeyError
      of a missing key or the TypeError of indexing a non-dictionary with a
      string, both of which make `get_value` return its default. */
  function GetPath(v: Value, keys: seq<string>): (r: Option<Value>)
    ensures keys == [] ==> r == Some(v)
    ensures keys != [] && !v.Dict? ==> r.None?
    ensures keys != [] && v.Dict? && keys[0] !in Keys(v.entries) ==> r.None?
    decreases |keys|
  {
    if keys == [] then Some(v)
    else
      match v
      case Dict(es) =>
        (match Lookup(es, keys[0])
         case Some(child) => GetPath(child, keys[1..])
         case None => None)
      case _ => None
  }

  /** `get_value(config_type, key_path, default)` */
  function GetValue(store: Store, configType: string, keyPath: string, default: Value): (r: Value)
    ensures GetPath(GetConfig(store, configType), Split(keyPath, '.')).None? ==> r == default
    ensures GetPath(GetConfig(store, configType), Split(keyPath, '.')).Some? ==>
              r == GetPath(GetConfig(store, configType), Split(keyPath, '.')).value
  {
    GetPath(GetConfig(store, configType), Split(keyPath, '.')).GetOr(default)
  }

  /** An unknown configuration type yields the default for every path,
      because its document reads as an empty dictionary. */
  lemma UnknownTypeGivesDefault(store: Store, configType: string, keyPath: string, default: Value)
    requires configType !in Keys(store)
    ensures GetValue(store, configType, keyPath, default) == default
  {
    var keys := Split(keyPath, '.');
    assert keys != [];
    assert Lookup([], keys[0]) == None;
  }

  /** Every value that already exists along the path, below the leaf, is a
      dictionary: the condition under which the update loop's `key not in
      config` and `config[key]` steps never raise TypeError. */
  predicate PathClear(v: Value, keys: seq<string>)
    requires keys != []
    decreases |keys|
  {
    v.Dict? &&
    (|keys| == 1 ||
     match Lookup(v.entries, keys[0])
     case None => true
     case Some(child) => PathClear(child, keys[1..]))
  }

  /** The navigation and assignment of `update_config` on one document:
      missing intermediate keys get a fresh `{}`, the leaf is assigned.
      None stands for the TypeError raised on a non-dictionary. */
  function SetPath(v: Value, keys: seq<string>, nv: Value): (r: Option<Value>)
    requires keys != []
    ensures r.Some? <==> PathClear(v, keys)
    ensures r.Some? ==> r.value.Dict? && GetPath(r.value, keys) == Some(nv)
    ensures r.Some? ==> Keys(r.value.entries) == Keys(v.entries) + {keys[0]}
    decreases |keys|
  {
    match v
    case Dict(es) =>
      if |keys| == 1 then
        SetLookup(es, keys[0], nv, keys[0]);
        Some(Dict(Set(es, keys[0], nv)))
      else
        var child := Lookup(es, keys[0]).GetOr(Dict([]));
        assert Lookup(es, keys[0]).None? ==> PathClear(child, keys[1..]);
        (match SetPath(child, keys[1..], nv)
         case Some(c) =>
           SetLookup(es, keys[0], c, keys[0]);
           Some(Dict(Set(es, keys[0], c)))
         case None => None)
    case _ => None
  }

  /** Two key paths that part ways: neither is a prefix of the other. */
  predicate Diverge(a: seq<string>, b: seq<string>)
    decreases |a|
  {
    a != [] && b != [] && (a[0] != b[0] || Diverge(a[1..], b[1..]))
  }

  /** An update reaches only its own path: a path that parts ways with it
      reads the same before and after, including a sibling key next to a
      freshly created intermediate dictionary. */
  lemma {:induction false} SetPathElsewhere(v: Value, keys: seq<string>, nv: Value, other: seq<string>)
    requires keys != [] && SetPath(v, keys, nv).Some?
    requires Diverge(keys, other)
    ensures GetPath(SetPath(v, keys, nv).value, other) == GetPath(v, other)
    decreases |keys|
  {
    var es := v.entries;
    if keys[0] != other[0] {
      var r := SetPath(v, keys, nv).value;
      if |keys| == 1 {
        SetLookup(es, keys[0], nv, other[0]);
      } else {
        var c := SetPath(Lookup(es, keys[0]).GetOr(Dict([])), keys[1..], nv).value;
        SetLookup(es, keys[0], c, other[0]);
      }
    } else {
      var child := Lookup(es, keys[0]).GetOr(Dict([]));
      SetPathElsewhere(child, keys[1..], nv, other[1..]);
      var c := SetPath(child, keys[1..], nv).value;
      SetLookup(es, keys[0], c, keys[0]);
      if Lookup(es, keys[0]).None? {
        assert GetPath(child, other[1..]) == None by {
          assert other[1..] != [];
          assert Lookup([], other[1..][0]) == None;
        }
      }
    }
  }

  /** `update_config(config_type, key_path, value)`. A type not in the
      store is first added as `{}`. Failure is the TypeError raised when an
      existing value on the path is not a dictionary; it is raised before
      anything is written, so the store is left as it was. */
  function UpdateConfig(store: Store, configType: string, keyPath: string, nv: Value): (r: Result<Store>)
    ensures r.Success? <==> PathClear(GetConfig(store, configType), Split(keyPath, '.'))
    ensures r.Success? ==> GetValue(r.value, configType, keyPath, Null) == nv
    ensures r.Success? ==> Keys(r.value) == Keys(store) + {configType}
    ensures r.Success? ==> forall t | t != configType :: Lookup(r.value, t) == Lookup(store, t)
  {
    var doc := GetConfig(store, configType);
    var keys := Split(keyPath, '.');
    match SetPath(doc, keys, nv)
    case None => Failure("TypeError")
    case Some(d) =>
      var s := Set(store, configType, d);
      SetLookup(store, configType, d, configType);
      assert forall t | t != configType :: Lookup(s, t) == Lookup(store, t) by {
        forall t | t != configType ensures Lookup(s, t) == Lookup(store, t) {
          SetLookup(store, configType, d, t);
        }
      }
      Success(s)
  }

  /** After an update, any other path of the same type that parts ways
      with the updated one still reads the same value. */
  lemma UpdateConfigKeepsSiblings(store: Store, configType: string, keyPath: string, nv: Value,
                                  otherPath: string, default: Value)
    requires UpdateConfig(store, configType, keyPath, nv).Success?
    requires Diverge(Split(keyPath, '.'), Split(otherPath, '.'))
    ensures GetValue(UpdateConfig(store, configType, keyPath, nv).value, configType, otherPath, default)
            == GetValue(store, configType, otherPath, default)
  {
    var doc := GetConfig(store, configType);
    var d := SetPath(doc, Split(keyPath, '.'), nv).value;
    SetLookup(store, configType, d, configType);
    SetPathElsewhere(doc, Split(keyPath, '.'), nv, Split(otherPath, '.'));
  }

  /** A two-segment key path splits into its segments. */
  lemma DottedPath(a: string, b: string)
    requires '.' !in a && '.' !in b
    ensures Split(a + "." + b, '.') == [a, b]
  {
    SplitPrefix(a, b, '.');
    SplitWhole(b, '.');
  }

  /** The accessor defaults used when a key is absent. */
  const DefaultModelName: string := "yolov8n"
  const DefaultModelPath: string := "models/best.pt"
  const DefaultConfidence: real := 0.25

  /** `get_classes`, `get_model_name`, `get_confidence_threshold` and the
      other accessors: each reads one fixed path of one document, and
      answers a fixed default when the path is missing. */
  function GetClasses(store: Store): (r: Value)
    ensures GetPath(GetConfig(store, "model"), ["classes", "names"]).None? ==> r == List([])
    ensures GetPath(GetConfig(store, "model"), ["classes", "names"]).Some? ==> r == GetPath(GetConfig(store, "model"), ["classes", "names"]).value
  {
    DottedPath("classes", "names");
    GetValue(store, "model", "classes" + "." + "names", List([]))
  }

  function GetClassCategories(store: Store): (r: Value)
    ensures GetPath(GetConfig(store, "model"), ["classes", "categories"]).None? ==> r == Dict([])
    ensures GetPath(GetConfig(store, "model"), ["classes", "categories"]).Some? ==> r == GetPath(GetConfig(store, "model"), ["classes", "categories"]).value
  {
    DottedPath("classes", "categories");
    GetValue(store, "model", "classes" + "." + "categories", Dict([]))
  }

  function GetModelName(store: Store): (r: Value)
    ensures GetPath(GetConfig(store, "model"), ["model", "name"]).None? ==> r == Str(DefaultModelName)
    ensures GetPath(GetConfig(store, "model"), ["model", "name"]).Some? ==> r == GetPath(GetConfig(store, "model"), ["model", "name"]).value
  {
    DottedPath("model", "name");
    GetValue(store, "model", "model" + "." + "name", Str(DefaultModelName))
  }

  function GetDefaultModelPath(store: Store): (r: Value)
    ensures GetPath(GetConfig(store, "model"), ["model", "default_model_path"]).None? ==> r == Str(DefaultModelPath)
    ensures GetPath(GetConfig(store, "model"), ["model", "default_model_path"]).Some? ==> r == GetPath(GetConfig(store, "model"), ["model", "default_model_path"]).value
  {
    DottedPath("model", "default_model_path");
    GetValue(store, "model", "model" + "." + "default_model_path", Str(DefaultModelPath))
  }

  function GetConfidenceThreshold(store: Store): (r: Value)
    ensures GetPath(GetConfig(store, "model"), ["model", "confidence_threshold"]).None? ==> r == Num(DefaultConfidence)
    ensures GetPath(GetConfig(store, "model"), ["model", "confidence_threshold"]).Some? ==> r == GetPath(GetConfig(store, "model"), ["model", "confidence_threshold"]).value
  {
    DottedPath("model", "confidence_threshold");
    GetValue(store, "model", "model" + "." + "confidence_threshold", Num(DefaultConfidence))
  }

  function GetWebServerConfig(store: Store): (r: Value)
    ensures GetPath(GetConfig(store, "system"), ["web_server"]).None? ==> r == Dict([])
    ensures GetPath(GetConfig(store, "system"), ["web_server"]).Some? ==> r == GetPath(GetConfig(store, "system"), ["web_server"]).value
  {
    SplitWhole("web_server", '.');
    GetValue(store, "system", "web_server", Dict([]))
  }

  function GetCameraConfig(store: Store): (r: Value)
    ensures GetPath(GetConfig(store, "hardware"), ["camera"]).None? ==> r == Dict([])
    ensures GetPath(GetConfig(store, "hardware"), ["camera"]).Some? ==> r == GetPath(GetConfig(store, "hardware"), ["camera"]).value
  {
    SplitWhole("camera", '.');
    GetValue(store, "hardware", "camera", Dict([]))
  }

  function GetRobotArmConfig(store: Store): (r: Value)
    ensures GetPath(GetConfig(store, "hardware"), ["robot_arm"]).None? ==> r == Dict([])
    ensures GetPath(GetConfig(store, "hardware"), ["robot_arm"]).Some? ==> r == GetPath(GetConfig(store, "hardware"), ["robot_arm"]).value
  {
    SplitWhole("robot_arm", '.');
    GetValue(store, "hardware", "robot_arm", Dict([]))
  }

  /** With no configuration files at all, every accessor returns its
      default: the three documents read as `{}`, so no path is found. */
  lemma EmptyStoreDefaults()
    ensures var s := LoadAll(None, None, None);
            && GetClasses(s) == List([])
            && GetClassCategories(s) == Dict([])
            && GetModelName(s) == Str(DefaultModelName)
            && GetDefaultModelPath(s) == Str(DefaultModelPath)
            && GetConfidenceThreshold(s) == Num(DefaultConfidence)
            && GetWebServerConfig(s) == Dict([])
            && GetCameraConfig(s) == Dict([])
            && GetRobotArmConfig(s) == Dict([])
  {
    var s := LoadAll(None, None, None);
    assert GetConfig(s, "model") == Dict([]);
    assert GetConfig(s, "system") == Dict([]);
    assert GetConfig(s, "hardware") == Dict([]);
  }
}
