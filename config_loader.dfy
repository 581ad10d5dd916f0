/**
 * The content generator's configuration: config/bot.yaml read once,
 * parsed, cached in a module-level variable and validated (five required
 * dotted fields and a default AI provider that has a providers entry).
 *
 * File reading and YAML parsing are parameters; a value that may be
 * undefined is an Option (None is undefined, Some(Null) is null).
 */
module ConfigLoader {
  import opened Wrappers
  import Strs
  import Js

  /** `current?.[key]`: undefined once the value is undefined or null; an object's own entry otherwise. */
  function Member(v: Option<Js.Value>, key: string): (r: Option<Js.Value>)
    ensures v.None? || v.value.Null? ==> r.None?
    ensures v.Some? && v.value.Obj? ==> r == Js.Get(v.value.fields, key)
  {
    if v.None? || v.value.Null? then None
    else if v.value.Obj? then Js.Get(v.value.fields, key)
    else None
  }

  /** The reduce of getNestedValue over the keys. */
  function Walk(v: Option<Js.Value>, keys: seq<string>): Option<Js.Value>
    decreases |keys|
  {
    if keys == [] then v else Walk(Member(v, keys[0]), keys[1..])
  }

  /** getNestedValue: follow the dot-separated keys of the path. */
  function GetNested(obj: Option<Js.Value>, path: string): (r: Option<Js.Value>)
    ensures obj.None? || obj.value.Null? ==> r.None?
    ensures '.' !in path ==> r == Member(obj, path)
  {
    var keys := Strs.Split(path, '.');
    if obj.None? || obj.value.Null? then
      WalkStops(obj, keys);
      Walk(obj, keys)
    else if '.' !in path then
      Strs.NoSepSplit(path, '.');
      assert keys[1..] == [];
      assert Walk(obj, keys) == Walk(Member(obj, path), []);
      Walk(obj, keys)
    else
      Walk(obj, keys)
  }

  /** Following a path is following its first part and then the rest. */
  lemma {:induction false} WalkAppend(v: Option<Js.Value>, a: seq<string>, b: seq<string>)
    ensures Walk(v, a + b) == Walk(Walk(v, a), b)
    decreases |a|
  {
    if a != [] {
      assert a + b != [];
      assert (a + b)[0] == a[0];
      assert (a + b)[1..] == a[1..] + b;
      WalkAppend(Member(v, a[0]), a[1..], b);
    } else {
      assert a + b == b;
    }
  }

  /** Once an intermediate value is undefined or null, the rest of the path yields undefined. */
  lemma {:induction false} WalkStops(v: Option<Js.Value>, keys: seq<string>)
    requires keys != []
    requires v.None? || v.value.Null?
    ensures Walk(v, keys).None?
    decreases |keys|
  {
    if keys[1..] != [] {
      WalkStops(None, keys[1..]);
    }
  }

  /** A two-part path, such as "bot.name", is two property reads. */
  lemma TwoPartPath(obj: Option<Js.Value>, a: string, b: string)
    requires '.' !in a && '.' !in b
    ensures GetNested(obj, a + "." + b) == Member(Member(obj, a), b)
  {
    assert a + "." + b == a + ['.'] + b;
    Strs.SplitAround(a, '.', b);
    Strs.NoSepSplit(b, '.');
    var keys := Strs.Split(a + "." + b, '.');
    assert keys == [a, b];
    assert keys[1..] == [b] && keys[1..][1..] == [];
    assert Walk(obj, keys) == Walk(Member(obj, a), [b]);
    assert Walk(Member(obj, a), [b]) == Walk(Member(Member(obj, a), b), []);
  }

  const RequiredFields: seq<string> := ["bot.name", "bot.version", "telegram.polling", "ai.default_provider", "commands"]

  function MissingField(field: string): string
  {
    "Missing required configuration field: " + field
  }

  /** The index of the first field from `from` on whose value is falsy, if any. */
  function FirstMissing(config: Option<Js.Value>, fields: seq<string>, from: nat): (r: Option<nat>)
    requires from <= |fields|
    ensures r.None? <==> forall j :: from <= j < |fields| ==> Js.Present(GetNested(config, fields[j]))
    ensures r.Some? ==>
      (from <= r.value < |fields| && !Js.Present(GetNested(config, fields[r.value]))
       && forall j :: from <= j < r.value ==> Js.Present(GetNested(config, fields[j])))
    decreases |fields| - from
  {
    if from == |fields| then None
    else if !Js.Present(GetNested(config, fields[from])) then Some(from)
    else FirstMissing(config, fields, from + 1)
  }

  /** `providers[defaultProvider]` is truthy; reading through an undefined or null providers value throws. */
  function ProviderCheck(defaultProvider: Option<Js.Value>, providers: Option<Js.Value>): (r: Option<string>)
    ensures r.None? <==> (providers.Some? && !providers.value.Null?
      && Js.Present(Member(providers, if defaultProvider.Some? then Js.ToText(defaultProvider.value) else "undefined")))
  {
    var key := if defaultProvider.Some? then Js.ToText(defaultProvider.value) else "undefined";
    if providers.None? then Some("Cannot read properties of undefined (reading '" + key + "')")
    else if providers.value.Null? then Some("Cannot read properties of null (reading '" + key + "')")
    else if Js.Present(Member(providers, key)) then None
    else Some("Default AI provider '" + key + "' not found in providers configuration")
  }

  /** The provider check on `config.ai.default_provider` and `config.ai.providers`. */
  function ProviderError(config: Option<Js.Value>): Option<string>
  {
    ProviderCheck(GetNested(config, "ai.default_provider"), GetNested(config, "ai.providers"))
  }

  /** validateConfig: None when the configuration passes, the error message otherwise. */
  function ValidationError(config: Option<Js.Value>): (r: Option<string>)
    ensures r.None? <==> RequiredPresent(config) && ProviderListed(config)
  {
    NoneMissingIff(config);
    var r := match FirstMissing(config, RequiredFields, 0)
      case Some(i) => Some(MissingField(RequiredFields[i]))
      case None => ProviderError(config);
    if RequiredPresent(config) then ProviderErrorIff(config); r else r
  }

  /** The default provider names a truthy entry of an ai.providers object. */
  predicate ProviderListed(config: Option<Js.Value>)
  {
    var name := GetNested(config, "ai.default_provider");
    var providers := GetNested(config, "ai.providers");
    name.Some? && providers.Some? && !providers.value.Null?
    && Js.Present(Member(providers, Js.ToText(name.value)))
  }

  /** The five required fields, one by one. */
  predicate RequiredPresent(config: Option<Js.Value>)
  {
    Js.Present(GetNested(config, "bot.name")) && Js.Present(GetNested(config, "bot.version"))
    && Js.Present(GetNested(config, "telegram.polling")) && Js.Present(GetNested(config, "ai.default_provider"))
    && Js.Present(GetNested(config, "commands"))
  }

  /** The validation loop finds no missing field exactly when the five fields are present. */
  lemma NoneMissingIff(config: Option<Js.Value>)
    ensures FirstMissing(config, RequiredFields, 0).None? <==> RequiredPresent(config)
  {
    RequiredNames();
    if RequiredPresent(config) {
      forall j | 0 <= j < |RequiredFields|
        ensures Js.Present(GetNested(config, RequiredFields[j]))
      {
        assert j == 0 || j == 1 || j == 2 || j == 3 || j == 4;
      }
    }
  }

  /** Once the default provider is set, the provider check passes exactly when it is listed. */
  lemma ProviderErrorIff(config: Option<Js.Value>)
    requires Js.Present(GetNested(config, "ai.default_provider"))
    ensures ProviderError(config).None? <==> ProviderListed(config)
  {
  }

  /** `polling: false` fails validation, and with bot.name and bot.version set it is the field reported. */
  lemma PollingFalseRejected(config: Option<Js.Value>)
    requires GetNested(config, "telegram.polling") == Some(Js.Bool(false))
    ensures ValidationError(config).Some?
    ensures Js.Present(GetNested(config, "bot.name")) && Js.Present(GetNested(config, "bot.version")) ==>
      ValidationError(config) == Some(MissingField("telegram.polling"))
  {
    RequiredNames();
    var f := FirstMissing(config, RequiredFields, 0);
    assert !Js.Present(GetNested(config, RequiredFields[2]));
    assert f.Some?;
    if Js.Present(GetNested(config, "bot.name")) && Js.Present(GetNested(config, "bot.version")) {
      assert f.value != 0 && f.value != 1;
      assert f.value == 2;
    }
  }

  lemma RequiredNames()
    ensures RequiredFields[0] == "bot.name" && RequiredFields[1] == "bot.version"
    ensures RequiredFields[2] == "telegram.polling" && RequiredFields[3] == "ai.default_provider"
    ensures RequiredFields[4] == "commands"
  {
  }

  /** validateConfig's loop over the required fields, then the provider check. */
  method ValidateConfig(config: Option<Js.Value>) returns (err: Option<string>)
    ensures err == ValidationError(config)
  {
    var i := 0;
    while i < |RequiredFields|
      invariant 0 <= i <= |RequiredFields|
      invariant FirstMissing(config, RequiredFields, 0) == FirstMissing(config, RequiredFields, i)
    {
      var field := RequiredFields[i];
      if !Js.Present(GetNested(config, field)) {
        return Some(MissingField(field));
      }
      i := i + 1;
    }
    err := ProviderError(config);
  }

  const LoadFailed: string := "Configuration loading failed: "

  const NotLoaded: string := "Configuration not loaded. Call loadConfig() first."

  /**
   * loadConfig on the cached value: a truthy cache is returned as it is;
   * otherwise the file is read and parsed, the parsed value is cached
   * before validation, and any failure is reported with the load prefix.
   */
  function Load(cached: Js.Value, content: Result<string, string>, parse: string -> Result<Js.Value, string>)
    : (r: (Js.Value, Result<Js.Value, string>))
    ensures Js.Truthy(cached) ==> r == (cached, Ok(cached))
    ensures r.1.Err? ==> Strs.StartsWith(r.1.error, LoadFailed)
    ensures r.1.Ok? ==> r.1.value == r.0
    ensures !Js.Truthy(cached) && r.1.Ok? ==> ValidationError(Some(r.0)).None?
    ensures !Js.Truthy(cached) && (content.Err? || parse(content.value).Err?) ==> r.0 == cached && r.1.Err?
    ensures !Js.Truthy(cached) && content.Ok? && parse(content.value).Ok? ==>
              r.0 == parse(content.value).value && (r.1.Ok? <==> ValidationError(Some(r.0)).None?)
  {
    if Js.Truthy(cached) then (cached, Ok(cached))
    else
      match content
      case Err(e) => (cached, Err(LoadFailed + e))
      case Ok(text) =>
        match parse(text)
        case Err(e) => (cached, Err(LoadFailed + e))
        case Ok(v) =>
          match ValidationError(Some(v))
          case Some(e) => (v, Err(LoadFailed + e))
          case None => (v, Ok(v))
  }

  /** getConfig on the cached value. */
  function Current(cached: Js.Value): (r: Result<Js.Value, string>)
    ensures r.Ok? <==> Js.Truthy(cached)
    ensures r.Ok? ==> r.value == cached
  {
    if Js.Truthy(cached) then Ok(cached) else Err(NotLoaded)
  }

  /** After a successful load every later load returns the same object, whatever the file now says. */
  lemma LoadedStaysLoaded(cached: Js.Value, content: Result<string, string>, parse: string -> Result<Js.Value, string>,
                          content2: Result<string, string>, parse2: string -> Result<Js.Value, string>)
    requires Load(cached, content, parse).1.Ok?
    requires Js.Truthy(Load(cached, content, parse).0)
    ensures var first := Load(cached, content, parse);
      Load(first.0, content2, parse2) == (first.0, first.1)
      && Current(first.0) == first.1
  {
  }

  /**
   * Because the parsed value is cached before it is validated, a load that
   * failed validation on a truthy value leaves that value cached: the next
   * load returns it without validating, and getConfig returns it too.
   */
  lemma InvalidConfigServedNext(cached: Js.Value, text: string, parse: string -> Result<Js.Value, string>,
                                content2: Result<string, string>, parse2: string -> Result<Js.Value, string>)
    requires !Js.Truthy(cached)
    requires parse(text).Ok? && Js.Truthy(parse(text).value)
    requires ValidationError(Some(parse(text).value)).Some?
    ensures Load(cached, Ok(text), parse).1.Err?
    ensures var v := parse(text).value;
      Load(Load(cached, Ok(text), parse).0, content2, parse2).1 == Ok(v)
      && Current(Load(cached, Ok(text), parse).0) == Ok(v)
  {
  }

  /** The module's cachedConfig variable. */
  class ConfigStore {
    var cachedConfig: Js.Value

    constructor ()
      ensures cachedConfig == Js.Null
    {
      cachedConfig := Js.Null;
    }

    method LoadConfig(content: Result<string, string>, parse: string -> Result<Js.Value, string>)
      returns (r: Result<Js.Value, string>)
      modifies this
      ensures (cachedConfig, r) == Load(old(cachedConfig), content, parse)
    {
      if Js.Truthy(cachedConfig) {
        return Ok(cachedConfig);
      }
      if content.Err? {
        return Err(LoadFailed + content.error);
      }
      var parsed := parse(content.value);
      if parsed.Err? {
        return Err(LoadFailed + parsed.error);
      }
      cachedConfig := parsed.value;
      var err := ValidateConfig(Some(cachedConfig));
      if err.Some? {
        return Err(LoadFailed + err.value);
      }
      r := Ok(cachedConfig);
    }

    function GetConfig(): (r: Result<Js.Value, string>)
      reads this
      ensures r.Ok? <==> Js.Truthy(cachedConfig)
      ensures r.Ok? ==> r.value == cachedConfig
    {
      Current(cachedConfig)
    }
  }
}
