/**
 * The prompt template manager of the content generator: templates are
 * parsed YAML objects loaded from a directory listing, validated, stored
 * under their file name, and turned into prompts, frontmatter and image
 * keywords by `{name}` placeholder substitution.
 */
module PromptManager {
  import opened Wrappers
  import opened Strs
  import opened Js
  import opened Seqs
  import BaseImageProvider

  /** The clock values prepareVariables reads (`new Date()` and `Date.now()`). */
  datatype Clock = Clock(date: string, datetime: string, timestamp: int)

  /** The templates Map: its entries and its keys in insertion order. */
  datatype Store = Store(templates: map<string, Fields>, names: seq<string>)

  ghost predicate StoreOk(s: Store)
  {
    Distinct(s.names)
    && (forall n :: n in s.templates <==> n in s.names)
    && (forall n :: n in s.templates ==> ValidateTemplate(s.templates[n], n).None?)
  }

  /** `templates.set(name, t)`: a new name goes last, a known one keeps its place. */
  function Set(s: Store, name: string, t: Fields): (r: Store)
    ensures r.templates == s.templates[name := t]
    ensures r.names == if name in s.names then s.names else s.names + [name]
  {
    Store(s.templates[name := t], if name in s.names then s.names else s.names + [name])
  }

  // ---------------------------------------------------------------------------
  // validateTemplate and loadTemplate
  // ---------------------------------------------------------------------------

  function Prop(f: Fields, k: string): Value
  {
    Get(f, k).GetOr(Null)
  }

  /** `typeof v === 'object'` for a truthy value. */
  predicate IsObjectLike(v: Value)
  {
    v.Obj? || v.Arr?
  }

  /**
   * `validateTemplate(template, name)`: the first failed check as an error
   * message, or None when the template is acceptable.
   */
  function ValidateTemplate(t: Fields, name: string): (e: Option<string>)
    ensures e.None? <==>
      Truthy(Prop(t, "name")) && Truthy(Prop(t, "prompt"))
      && (Truthy(Prop(t, "variables")) ==> Prop(t, "variables").Arr?)
      && (Truthy(Prop(t, "frontmatter_template")) ==> IsObjectLike(Prop(t, "frontmatter_template")))
    ensures !Truthy(Prop(t, "name")) ==> e == Some("Template " + name + " missing required field: name")
    ensures Truthy(Prop(t, "name")) && !Truthy(Prop(t, "prompt")) ==>
              e == Some("Template " + name + " missing required field: prompt")
  {
    if !Truthy(Prop(t, "name")) then Some("Template " + name + " missing required field: name")
    else if !Truthy(Prop(t, "prompt")) then Some("Template " + name + " missing required field: prompt")
    else if Truthy(Prop(t, "variables")) && !Prop(t, "variables").Arr? then
      Some("Template " + name + ": variables must be an array")
    else if Truthy(Prop(t, "frontmatter_template")) && !IsObjectLike(Prop(t, "frontmatter_template")) then
      Some("Template " + name + ": frontmatter_template must be an object")
    else None
  }

  /** Validation of whatever the YAML parser produced: only an object can pass. */
  function CheckParsed(v: Value, name: string): (r: Result<Fields, string>)
    ensures r.Ok? <==> v.Obj? && ValidateTemplate(v.fields, name).None?
    ensures r.Ok? ==> r.value == v.fields
  {
    match v
    case Obj(f) =>
      var e := ValidateTemplate(f, name);
      if e.Some? then Err(e.value) else Ok(f)
    case Null => Err("Cannot read properties of null (reading 'name')")
    case _ => Err("Template " + name + " missing required field: name")
  }

  /**
   * `loadTemplate(name)`: reads `<name>.yaml` (for a `.yml` file too), parses
   * and validates it; every failure is wrapped with the template's name.
   */
  function LoadTemplate(name: string, read: string -> Result<string, string>, parse: string -> Result<Value, string>)
    : (r: Result<Fields, string>)
    ensures r.Ok? ==> ValidateTemplate(r.value, name).None?
    ensures r.Err? ==> StartsWith(r.error, "Failed to load template " + name + ": ")
    ensures r.Ok? <==> read(name + ".yaml").Ok? && parse(read(name + ".yaml").value).Ok?
                       && CheckParsed(parse(read(name + ".yaml").value).value, name).Ok?
  {
    var prefix := "Failed to load template " + name + ": ";
    var content := read(name + ".yaml");
    if content.Err? then Failed(prefix, content.error)
    else
      var parsed := parse(content.value);
      if parsed.Err? then Failed(prefix, parsed.error)
      else
        var checked := CheckParsed(parsed.value, name);
        if checked.Err? then Failed(prefix, checked.error) else Ok(checked.value)
  }

  function Failed(prefix: string, message: string): (r: Result<Fields, string>)
    ensures r.Err? && StartsWith(r.error, prefix)
  {
    assert (prefix + message)[..|prefix|] == prefix;
    Err(prefix + message)
  }

  /** `extname(file)` is `.yaml` or `.yml` (a name that is only the extension has none). */
  predicate YamlFile(file: string)
  {
    (|file| > 5 && EndsWith(file, ".yaml")) || (|file| > 4 && EndsWith(file, ".yml"))
  }

  /** `file.replace(/\.(yaml|yml)$/, '')`. */
  function TemplateName(file: string): (r: string)
    requires YamlFile(file)
    ensures |r| > 0 && StartsWith(file, r)
  {
    var r := if EndsWith(file, ".yaml") then file[..|file| - 5] else file[..|file| - 4];
    assert file[..|r|] == r;
    r
  }

  /** One turn of the loading loop: a YAML file whose template loads is stored under its name. */
  function LoadStep(s: Store, f: string, read: string -> Result<string, string>,
                    parse: string -> Result<Value, string>): (r: Store)
    ensures !YamlFile(f) || LoadTemplate(TemplateName(f), read, parse).Err? ==> r == s
    ensures YamlFile(f) && LoadTemplate(TemplateName(f), read, parse).Ok? ==>
              r.templates == s.templates[TemplateName(f) := LoadTemplate(TemplateName(f), read, parse).value]
  {
    if !YamlFile(f) then s
    else
      var t := LoadTemplate(TemplateName(f), read, parse);
      if t.Ok? then Set(s, TemplateName(f), t.value) else s
  }

  /** The store after the loading loop has gone through `files`; no stored name is lost. */
  function Loaded(s: Store, files: seq<string>, read: string -> Result<string, string>,
                  parse: string -> Result<Value, string>): (r: Store)
    ensures s.templates.Keys <= r.templates.Keys
    decreases |files|
  {
    if |files| == 0 then s else Loaded(LoadStep(s, files[0], read, parse), files[1..], read, parse)
  }

  /** A turn of the loop keeps the store well formed. */
  lemma LoadStepOk(s: Store, f: string, read: string -> Result<string, string>,
                   parse: string -> Result<Value, string>)
    requires StoreOk(s)
    ensures StoreOk(LoadStep(s, f, read, parse))
  {
    if YamlFile(f) {
      var t := LoadTemplate(TemplateName(f), read, parse);
      if t.Ok? && TemplateName(f) !in s.names {
        DistinctAppend(s.names, TemplateName(f));
      }
    }
  }

  lemma LoadedFrom(s: Store, files: seq<string>, i: nat, read: string -> Result<string, string>,
                   parse: string -> Result<Value, string>)
    requires i < |files|
    ensures Loaded(s, files[i..], read, parse) == Loaded(LoadStep(s, files[i], read, parse), files[i + 1..], read, parse)
  {
    assert files[i..][0] == files[i] && files[i..][1..] == files[i + 1..];
  }

  /** Loading keeps the store well formed: distinct names, each naming a valid template. */
  lemma {:induction false} LoadedOk(s: Store, files: seq<string>, read: string -> Result<string, string>,
                                    parse: string -> Result<Value, string>)
    requires StoreOk(s)
    ensures StoreOk(Loaded(s, files, read, parse))
    decreases |files|
  {
    if |files| > 0 {
      LoadStepOk(s, files[0], read, parse);
      LoadedOk(LoadStep(s, files[0], read, parse), files[1..], read, parse);
    }
  }

  /** A name is stored after loading exactly when it was stored before or some YAML file loaded under it. */
  lemma {:induction false} LoadedNames(s: Store, files: seq<string>, read: string -> Result<string, string>,
                                       parse: string -> Result<Value, string>, n: string)
    ensures n in Loaded(s, files, read, parse).templates <==> n in s.templates || LoadsAs(files, n, read, parse)
    decreases |files|
  {
    if |files| > 0 {
      var s' := LoadStep(s, files[0], read, parse);
      LoadedNames(s', files[1..], read, parse, n);
      LoadsAsFirst(files, n, read, parse);
    }
  }

  /** Some YAML file of the listing loads under the name n. */
  predicate LoadsAs(files: seq<string>, n: string, read: string -> Result<string, string>,
                    parse: string -> Result<Value, string>)
  {
    exists i :: 0 <= i < |files| && YamlFile(files[i]) && TemplateName(files[i]) == n && LoadTemplate(n, read, parse).Ok?
  }

  /** A name loads from a non-empty listing when it loads from its first file or from the rest. */
  lemma LoadsAsFirst(files: seq<string>, n: string, read: string -> Result<string, string>,
                     parse: string -> Result<Value, string>)
    requires |files| > 0
    ensures LoadsAs(files, n, read, parse) <==>
      (YamlFile(files[0]) && TemplateName(files[0]) == n && LoadTemplate(n, read, parse).Ok?)
      || LoadsAs(files[1..], n, read, parse)
  {
    if LoadsAs(files, n, read, parse) {
      var i :| 0 <= i < |files| && YamlFile(files[i]) && TemplateName(files[i]) == n && LoadTemplate(n, read, parse).Ok?;
      if i > 0 { assert files[1..][i - 1] == files[i]; }
    }
    if LoadsAs(files[1..], n, read, parse) {
      var i :| 0 <= i < |files[1..]| && YamlFile(files[1..][i]) && TemplateName(files[1..][i]) == n
               && LoadTemplate(n, read, parse).Ok?;
      assert files[i + 1] == files[1..][i];
    }
  }

  // ---------------------------------------------------------------------------
  // prepareVariables
  // ---------------------------------------------------------------------------

  const SystemNames: seq<string> := ["current_date", "current_datetime", "current_timestamp"]

  /** `{...userVariables}` with the three clock variables assigned over it. */
  function WithSystem(user: Fields, c: Clock): Fields
  {
    Put(Put(Put(user, "current_date", Str(c.date)), "current_datetime", Str(c.datetime)),
        "current_timestamp", Num(c.timestamp))
  }

  /**
   * What `for (const variable of template.variables)` iterates: nothing when
   * the field is falsy, the items of an array, the characters of a string.
   */
  function Declarations(t: Fields): (r: Result<seq<Value>, string>)
    ensures Prop(t, "variables").Arr? ==> r == Ok(Prop(t, "variables").items)
    ensures !Truthy(Prop(t, "variables")) ==> r == Ok([])
  {
    var v := Prop(t, "variables");
    if !Truthy(v) then Ok([])
    else match v
      case Arr(items) => Ok(items)
      case Str(s) => Ok(seq(|s|, i requires 0 <= i < |s| => Str([s[i]])))
      case _ => Err("template.variables is not iterable")
  }

  /** `typeof variable === 'string' ? variable : variable.name`, as the property key it is used as. */
  function VarName(variable: Value): Result<string, string>
  {
    match variable
    case Str(s) => Ok(s)
    case Null => Err("Cannot read properties of null (reading 'name')")
    case Obj(f) => Ok(if HasKey(f, "name") then ToText(Get(f, "name").value) else "undefined")
    case _ => Ok("undefined")
  }

  /** One pass of the declaration loop. */
  function Declare(vars: Fields, variable: Value): (r: Result<Fields, string>)
    ensures r.Ok? ==> forall k :: HasKey(vars, k) ==> Get(r.value, k) == Get(vars, k)
    ensures r.Ok? ==> VarName(variable).Ok? && HasKey(r.value, VarName(variable).value)
  {
    var n := VarName(variable);
    if n.Err? then Err(n.error)
    else if HasKey(vars, n.value) then Ok(vars)
    else if variable.Obj? && HasKey(variable.fields, "default") then
      PutKeeps(vars, n.value, Get(variable.fields, "default").value);
      Ok(Put(vars, n.value, Get(variable.fields, "default").value))
    else if variable.Obj? && Truthy(Prop(variable.fields, "required")) then
      Err("Required variable '" + n.value + "' not provided for template")
    else
      PutKeeps(vars, n.value, Str(""));
      Ok(Put(vars, n.value, Str("")))
  }

  lemma PutKeeps(f: Fields, k: string, v: Value)
    requires !HasKey(f, k)
    ensures forall j :: HasKey(f, j) ==> Get(Put(f, k, v), j) == Get(f, j)
    ensures HasKey(Put(f, k, v), k)
  {
    forall j | HasKey(f, j) ensures Get(Put(f, k, v), j) == Get(f, j) {
      GetPut(f, k, v, j);
    }
    GetPut(f, k, v, k);
  }

  /**
   * The declaration loop over `items`, stopping at the first error; a
   * variable already set is never replaced.
   */
  function DeclareAll(vars: Fields, items: seq<Value>): (r: Result<Fields, string>)
    ensures r.Ok? ==> forall k :: HasKey(vars, k) ==> Get(r.value, k) == Get(vars, k)
    decreases |items|
  {
    if |items| == 0 then Ok(vars)
    else
      var r := Declare(vars, items[0]);
      if r.Err? then Err(r.error) else DeclareAll(r.value, items[1..])
  }

  /** `prepareVariables(template, userVariables)` as a value. */
  function Prepared(t: Fields, user: Fields, c: Clock): Result<Fields, string>
  {
    var items := Declarations(t);
    if items.Err? then Err(items.error) else DeclareAll(WithSystem(user, c), items.value)
  }

  /** `prepareVariables`: the declaration loop. */
  method PrepareVariables(t: Fields, user: Fields, c: Clock) returns (r: Result<Fields, string>)
    ensures r == Prepared(t, user, c)
  {
    var items := Declarations(t);
    if items.Err? {
      return Err(items.error);
    }
    var vars := WithSystem(user, c);
    var i := 0;
    while i < |items.value|
      invariant 0 <= i <= |items.value|
      invariant DeclareAll(vars, items.value[i..]) == Prepared(t, user, c)
    {
      var step := Declare(vars, items.value[i]);
      if step.Err? {
        return Err(step.error);
      }
      vars := step.value;
      i := i + 1;
    }
    r := Ok(vars);
  }

  /** After a successful loop every declared name is set. */
  lemma {:induction false} DeclareAllDefines(vars: Fields, items: seq<Value>, i: nat)
    requires i < |items| && DeclareAll(vars, items).Ok?
    ensures VarName(items[i]).Ok? && HasKey(DeclareAll(vars, items).value, VarName(items[i]).value)
    decreases |items|
  {
    var r := Declare(vars, items[0]);
    assert r.Ok? && DeclareAll(vars, items) == DeclareAll(r.value, items[1..]);
    if i == 0 {
      var n := VarName(items[0]).value;
      assert HasKey(r.value, n);
      assert Get(DeclareAll(r.value, items[1..]).value, n) == Get(r.value, n);
    } else {
      assert items[1..][i - 1] == items[i];
      DeclareAllDefines(r.value, items[1..], i - 1);
    }
  }

  /**
   * The first declaration of a name that is not yet set decides it: its
   * default when it has one (even null), an error when it is required, and
   * the empty string otherwise.
   */
  lemma {:induction false} FirstDeclarationDecides(vars: Fields, items: seq<Value>, i: nat, n: string)
    requires i < |items| && VarName(items[i]) == Ok(n) && !HasKey(vars, n)
    requires forall j :: 0 <= j < i ==> VarName(items[j]) != Ok(n)
    ensures items[i].Obj? && HasKey(items[i].fields, "default") && DeclareAll(vars, items).Ok? ==>
              Get(DeclareAll(vars, items).value, n) == Get(items[i].fields, "default")
    ensures items[i].Obj? && !HasKey(items[i].fields, "default") && Truthy(Prop(items[i].fields, "required")) ==>
              DeclareAll(vars, items).Err?
    ensures (!(items[i].Obj? && (HasKey(items[i].fields, "default") || Truthy(Prop(items[i].fields, "required"))))
             && DeclareAll(vars, items).Ok?) ==> Get(DeclareAll(vars, items).value, n) == Some(Str(""))
    decreases |items|
  {
    var r := Declare(vars, items[0]);
    if i == 0 {
      if r.Ok? {
        GetPut(vars, n, if items[0].Obj? && HasKey(items[0].fields, "default")
                        then Get(items[0].fields, "default").value else Str(""), n);
      }
    } else if r.Ok? {
      assert VarName(items[0]) != Ok(n);
      assert !HasKey(r.value, n) by {
        if !HasKey(vars, VarName(items[0]).value) {
          var v := if items[0].Obj? && HasKey(items[0].fields, "default")
                   then Get(items[0].fields, "default").value else Str("");
          GetPut(vars, VarName(items[0]).value, v, n);
        }
      }
      forall j | 0 <= j < i - 1 ensures VarName(items[1..][j]) != Ok(n) {
        assert items[1..][j] == items[j + 1];
      }
      assert items[1..][i - 1] == items[i];
      FirstDeclarationDecides(r.value, items[1..], i - 1, n);
    }
  }

  /**
   * The clock variables always win over user values of the same name, and
   * every other user value reaches the prepared variables unchanged.
   */
  lemma PreparedKeepsUserAndClock(t: Fields, user: Fields, c: Clock, k: string)
    requires Prepared(t, user, c).Ok?
    ensures var r := Prepared(t, user, c).value;
      Get(r, "current_date") == Some(Str(c.date))
      && Get(r, "current_datetime") == Some(Str(c.datetime))
      && Get(r, "current_timestamp") == Some(Num(c.timestamp))
      && (HasKey(user, k) && k !in SystemNames ==> Get(r, k) == Get(user, k))
  {
    var u1 := Put(user, "current_date", Str(c.date));
    var u2 := Put(u1, "current_datetime", Str(c.datetime));
    var w := WithSystem(user, c);
    var items := Declarations(t).value;
    GetPut(u2, "current_timestamp", Num(c.timestamp), "current_date");
    GetPut(u1, "current_datetime", Str(c.datetime), "current_date");
    GetPut(user, "current_date", Str(c.date), "current_date");
    GetPut(u2, "current_timestamp", Num(c.timestamp), "current_datetime");
    GetPut(u1, "current_datetime", Str(c.datetime), "current_datetime");
    GetPut(u2, "current_timestamp", Num(c.timestamp), "current_timestamp");
    if HasKey(user, k) && k !in SystemNames {
      GetPut(u2, "current_timestamp", Num(c.timestamp), k);
      GetPut(u1, "current_datetime", Str(c.datetime), k);
      GetPut(user, "current_date", Str(c.date), k);
    }
  }

  // ---------------------------------------------------------------------------
  // Substitution
  // ---------------------------------------------------------------------------

  function Placeholder(k: string): (p: string)
    ensures |p| == |k| + 2 && p[0] == '{'
  {
    "{" + k + "}"
  }

  /**
   * Every `{key}` of every variable replaced, one variable at a time in
   * entry order; a text that mentions no variable's placeholder comes back
   * unchanged.
   */
  function SubstituteText(s: string, vars: Fields): (r: string)
    ensures (forall i :: 0 <= i < |vars| ==> !Contains(s, Placeholder(vars[i].0))) ==> r == s
    decreases |vars|
  {
    if |vars| == 0 then s
    else
      var p := Placeholder(vars[0].0);
      if !Contains(s, p) then
        ReplaceAllAbsent(s, p, ToText(vars[0].1));
        assert forall i :: 0 <= i < |vars[1..]| ==> vars[1..][i] == vars[i + 1];
        SubstituteText(ReplaceAll(s, p, ToText(vars[0].1)), vars[1..])
      else
        SubstituteText(ReplaceAll(s, p, ToText(vars[0].1)), vars[1..])
  }

  lemma {:induction false} NoBraceNoPlaceholder(s: string, k: string)
    requires '{' !in s
    ensures !Contains(s, Placeholder(k))
    decreases |s|
  {
    if |s| > 0 {
      assert forall c :: c in s[1..] ==> c in s;
      NoBraceNoPlaceholder(s[1..], k);
    }
  }

  /** Strings anywhere inside have the same shape after substitution. */
  predicate SameShape(a: Value, b: Value)
  {
    match a
    case Str(_) => b.Str?
    case Arr(xs) => b.Arr? && |b.items| == |xs|
    case Obj(fs) => b.Obj? && Keys(b.fields) == Keys(fs)
    case _ => b == a
  }

  /**
   * `substituteVariablesInObject(obj, variables)`: strings are substituted,
   * arrays and objects are rebuilt item by item, everything else is kept.
   */
  function SubstituteValue(v: Value, vars: Fields): (r: Value)
    ensures SameShape(v, r)
    ensures r.Arr? ==> forall i :: 0 <= i < |r.items| ==> r.items[i] == SubstituteValue(v.items[i], vars)
    ensures r.Obj? ==> forall i :: 0 <= i < |r.fields| ==> r.fields[i].1 == SubstituteValue(v.fields[i].1, vars)
  {
    match v
    case Str(s) => Str(SubstituteText(s, vars))
    case Arr(items) => Arr(seq(|items|, i requires 0 <= i < |items| => SubstituteValue(items[i], vars)))
    case Obj(fields) =>
      Obj(seq(|fields|, i requires 0 <= i < |fields| => (fields[i].0, SubstituteValue(fields[i].1, vars))))
    case _ => v
  }

  /** With no variables, substitution is the identity at every depth. */
  lemma {:induction false} SubstituteNothing(v: Value)
    ensures SubstituteValue(v, []) == v
  {
    match v
    case Str(s) =>
    case Arr(items) =>
      forall i | 0 <= i < |items| ensures SubstituteValue(items[i], []) == items[i] {
        SubstituteNothing(items[i]);
      }
      assert SubstituteValue(v, []).items == items;
    case Obj(fields) =>
      forall i | 0 <= i < |fields| ensures SubstituteValue(fields[i].1, []) == fields[i].1 {
        SubstituteNothing(fields[i].1);
      }
      assert SubstituteValue(v, []).fields == fields;
    case _ =>
  }

  // ---------------------------------------------------------------------------
  // The manager
  // ---------------------------------------------------------------------------

  datatype BuiltPrompt = BuiltPrompt(prompt: string, template: Fields, variables: Fields)

  datatype TemplateInfo = TemplateInfo(name: string, displayName: Value, description: Value,
                                       language: Value, version: Value)

  datatype TemplateMetadata = TemplateMetadata(name: Value, description: Value, version: Value,
                                               language: Value, variables: Value,
                                               hasImageSupport: bool, hasFrontmatter: bool)

  function Or(a: Value, d: Value): (r: Value)
    ensures Truthy(a) ==> r == a
    ensures !Truthy(a) ==> r == d
  {
    if Truthy(a) then a else d
  }

  /** The prompt of a template with the prepared variables substituted, as a value. */
  function Built(t: Fields, vars: Fields): Result<BuiltPrompt, string>
  {
    match Prop(t, "prompt")
    case Str(p) => Ok(BuiltPrompt(SubstituteText(p, vars), t, vars))
    case _ => Err("prompt.replace is not a function")
  }

  class Manager {
    var templates: map<string, Fields>
    var names: seq<string>

    constructor()
      ensures templates == map[] && names == []
      ensures StoreOk(Store(templates, names))
    {
      templates := map[];
      names := [];
    }

    /**
     * `loadTemplates()`: every `.yaml`/`.yml` entry of the listing is loaded
     * in order, a failing one is skipped; a listing error is passed on.
     */
    method LoadTemplates(listing: Result<seq<string>, string>, read: string -> Result<string, string>,
                         parse: string -> Result<Value, string>) returns (err: Option<string>)
      requires StoreOk(Store(templates, names))
      modifies this
      ensures StoreOk(Store(templates, names))
      ensures listing.Err? ==> err == Some(listing.error) && templates == old(templates) && names == old(names)
      ensures listing.Ok? ==> err.None? && Store(templates, names) == Loaded(old(Store(templates, names)), listing.value, read, parse)
    {
      if listing.Err? {
        return Some(listing.error);
      }
      var files := listing.value;
      ghost var start := Store(templates, names);
      assert files[0..] == files;
      var i := 0;
      while i < |files|
        invariant i <= |files|
        invariant StoreOk(Store(templates, names))
        invariant Loaded(start, files, read, parse) == Loaded(Store(templates, names), files[i..], read, parse)
      {
        ghost var cur := Store(templates, names);
        LoadedFrom(cur, files, i, read, parse);
        LoadStepOk(cur, files[i], read, parse);
        ghost var next := LoadStep(cur, files[i], read, parse);
        if YamlFile(files[i]) {
          var name := TemplateName(files[i]);
          var t := LoadTemplate(name, read, parse);
          if t.Ok? {
            templates := templates[name := t.value];
            if name !in names {
              names := names + [name];
            }
            assert next == Set(cur, name, t.value);
          } else {
            assert next == cur;
          }
        } else {
          assert next == cur;
        }
        assert Store(templates, names) == next;
        i := i + 1;
      }
      assert files[|files|..] == [];
      err := None;
    }

    /** `getTemplate(name)`. */
    function GetTemplate(name: string): (r: Result<Fields, string>)
      reads this
      ensures r.Ok? <==> name in templates
      ensures r.Ok? ==> r.value == templates[name]
      ensures r.Err? ==> r.error == "Template '" + name + "' not found"
    {
      if name in templates then Ok(templates[name]) else Err("Template '" + name + "' not found")
    }

    /** `getAvailableTemplates()`: one summary per stored template, in insertion order. */
    function GetAvailableTemplates(): (r: seq<TemplateInfo>)
      requires StoreOk(Store(templates, names))
      reads this
      ensures |r| == |names|
      ensures forall i :: 0 <= i < |names| ==>
                (r[i].name == names[i]
                 && r[i].displayName == Prop(templates[names[i]], "name")
                 && r[i].description == Or(Prop(templates[names[i]], "description"), Str("Нет описания"))
                 && r[i].language == Or(Prop(templates[names[i]], "language"), Str("ru"))
                 && r[i].version == Or(Prop(templates[names[i]], "version"), Str("1.0")))
    {
      seq(|names|, i requires 0 <= i < |names| && StoreOk(Store(templates, names)) reads this =>
        var t := templates[names[i]];
        TemplateInfo(names[i], Prop(t, "name"), Or(Prop(t, "description"), Str("Нет описания")),
                     Or(Prop(t, "language"), Str("ru")), Or(Prop(t, "version"), Str("1.0"))))
    }

    /** The specification of buildPrompt. */
    function BuildPromptSpec(name: string, user: Fields, c: Clock): Result<BuiltPrompt, string>
      reads this
    {
      var t := GetTemplate(name);
      if t.Err? then Err(t.error)
      else
        var vars := Prepared(t.value, user, c);
        if vars.Err? then Err(vars.error) else Built(t.value, vars.value)
    }

    /**
     * `buildPrompt(name, variables)`: the template's prompt with `{key}`
     * replaced for every prepared variable, in entry order.
     */
    method BuildPrompt(name: string, user: Fields, c: Clock) returns (r: Result<BuiltPrompt, string>)
      ensures r == BuildPromptSpec(name, user, c)
      ensures r.Ok? ==> name in templates && r.value.template == templates[name]
                        && Prepared(templates[name], user, c) == Ok(r.value.variables)
    {
      var t := GetTemplate(name);
      if t.Err? {
        return Err(t.error);
      }
      var prepared := PrepareVariables(t.value, user, c);
      if prepared.Err? {
        return Err(prepared.error);
      }
      var vars := prepared.value;
      if !Prop(t.value, "prompt").Str? {
        return Err("prompt.replace is not a function");
      }
      var prompt := Prop(t.value, "prompt").s;
      var i := 0;
      while i < |vars|
        invariant 0 <= i <= |vars|
        invariant SubstituteText(prompt, vars[i..]) == SubstituteText(Prop(t.value, "prompt").s, vars)
      {
        prompt := ReplaceAll(prompt, Placeholder(vars[i].0), ToText(vars[i].1));
        i := i + 1;
      }
      assert vars[|vars|..] == [];
      r := Ok(BuiltPrompt(prompt, t.value, vars));
    }

    /**
     * `buildFrontmatter(name, variables, additionalData)`: `{}` without a
     * frontmatter template, else the substituted template with the
     * additional data assigned over it.
     */
    function BuildFrontmatter(name: string, user: Fields, additional: Fields, c: Clock): (r: Result<Value, string>)
      reads this
      ensures r.Ok? ==> name in templates
      ensures name in templates && !Truthy(Prop(templates[name], "frontmatter_template")) ==> r == Ok(Obj([]))
      ensures r.Ok? && Prop(templates[name], "frontmatter_template").Obj? ==>
        var fm := Prop(templates[name], "frontmatter_template").fields;
        r.value.Obj? && Prepared(templates[name], user, c).Ok?
        && forall k :: Get(r.value.fields, k) ==
             if HasKey(additional, k) then Get(additional, k)
             else Get(SubstituteValue(Obj(fm), Prepared(templates[name], user, c).value).fields, k)
    {
      var t := GetTemplate(name);
      if t.Err? then Err(t.error)
      else if !Truthy(Prop(t.value, "frontmatter_template")) then Ok(Obj([]))
      else
        var vars := Prepared(t.value, user, c);
        if vars.Err? then Err(vars.error)
        else
          var fm := SubstituteValue(Prop(t.value, "frontmatter_template"), vars.value);
          if fm.Obj? then
            AssignReads(fm.fields, additional);
            Ok(Obj(Assign(fm.fields, additional)))
          else Ok(fm)
    }

    /**
     * `getImageKeywords(name, variables)`: `[topic || 'article', 'concept',
     * 'technology']` without image keywords, else the substituted keywords
     * that are non-blank strings.
     */
    function GetImageKeywords(name: string, user: Fields, c: Clock): (r: Result<seq<Value>, string>)
      reads this
      ensures r.Ok? ==> name in templates
      ensures name in templates && !Truthy(Prop(templates[name], "image_keywords")) ==>
                r == Ok([Or(Prop(user, "topic"), Str("article")), Str("concept"), Str("technology")])
      ensures r.Ok? && Truthy(Prop(templates[name], "image_keywords")) ==>
                forall k :: k in r.value ==> k.Str? && !IsBlank(k.s)
      ensures name in templates && Truthy(Prop(templates[name], "image_keywords")) ==>
                var vars := Prepared(templates[name], user, c);
                r == if vars.Err? then Err(vars.error)
                     else SubstitutedKeywords(Prop(templates[name], "image_keywords"), vars.value)
    {
      var t := GetTemplate(name);
      if t.Err? then Err(t.error)
      else if !Truthy(Prop(t.value, "image_keywords")) then
        Ok([Or(Prop(user, "topic"), Str("article")), Str("concept"), Str("technology")])
      else
        var vars := Prepared(t.value, user, c);
        if vars.Err? then Err(vars.error) else SubstitutedKeywords(Prop(t.value, "image_keywords"), vars.value)
    }

    /** `getTemplateMetadata(name)`. */
    function GetTemplateMetadata(name: string): (r: Result<TemplateMetadata, string>)
      reads this
      ensures r.Ok? <==> name in templates
      ensures r.Ok? ==> r.value.hasImageSupport == Truthy(Prop(templates[name], "image_keywords"))
                        && r.value.hasFrontmatter == Truthy(Prop(templates[name], "frontmatter_template"))
                        && r.value.variables == Or(Prop(templates[name], "variables"), Arr([]))
      ensures r.Ok? ==> r.value.name == Prop(templates[name], "name")
                        && r.value.description == Or(Prop(templates[name], "description"), Str(""))
                        && r.value.version == Or(Prop(templates[name], "version"), Str("1.0"))
                        && r.value.language == Or(Prop(templates[name], "language"), Str("ru"))
      ensures r.Err? ==> r.error == "Template '" + name + "' not found"
    {
      var t := GetTemplate(name);
      if t.Err? then Err(t.error)
      else
        var f := t.value;
        Ok(TemplateMetadata(Prop(f, "name"), Or(Prop(f, "description"), Str("")), Or(Prop(f, "version"), Str("1.0")),
                            Or(Prop(f, "language"), Str("ru")), Or(Prop(f, "variables"), Arr([])),
                            Truthy(Prop(f, "image_keywords")), Truthy(Prop(f, "frontmatter_template"))))
    }
  }

  /** `keywords.map(k => this.substituteVariables(k, variables))`. */
  function SubstItems(items: seq<Value>, vars: Fields): (r: seq<Value>)
    ensures |r| == |items| && forall i :: 0 <= i < |items| ==> r[i] == SubstituteValue(items[i], vars)
  {
    seq(|items|, i requires 0 <= i < |items| => SubstituteValue(items[i], vars))
  }

  /**
   * `keywords.map(substitute).filter(k => k && k.trim().length > 0)`: the
   * substituted keywords that are non-blank strings, in order; the filter
   * throws on a truthy substituted keyword that is not a string.
   */
  function SubstitutedKeywords(keywords: Value, vars: Fields): (r: Result<seq<Value>, string>)
    ensures r.Ok? ==> forall k :: k in r.value ==> k.Str? && !IsBlank(k.s)
    ensures !keywords.Arr? ==> r.Err?
    ensures keywords.Arr? && r.Ok? ==>
              forall k :: Str(k) in r.value <==> Str(k) in SubstItems(keywords.items, vars) && !IsBlank(k)
    ensures keywords.Arr? && r.Ok? ==> IsSubsequence(r.value, SubstItems(keywords.items, vars))
    ensures keywords.Arr? && r.Ok? ==>
              forall v :: Count(r.value, v) ==
                if BaseImageProvider.KeywordOk(v) then Count(SubstItems(keywords.items, vars), v) else 0
    ensures keywords.Arr? ==>
              (r.Err? <==> exists v :: v in SubstItems(keywords.items, vars) && Truthy(v) && !v.Str?)
  {
    match keywords
    case Arr(items) =>
      var subst := SubstItems(items, vars);
      var kept := BaseImageProvider.KeepKeywords(subst);
      if kept.Err? then Err(kept.error)
      else
        var vs := BaseImageProvider.AsValues(kept.value);
        assert forall k :: Str(k) in vs <==> k in kept.value by {
          forall k ensures Str(k) in vs <==> k in kept.value {
            if k in kept.value { var i :| 0 <= i < |kept.value| && kept.value[i] == k; assert vs[i] == Str(k); }
          }
        }
        Ok(vs)
    case _ => Err("template.image_keywords.map is not a function")
  }

  lemma AssignReads(a: Fields, b: Fields)
    ensures forall k :: Get(Assign(a, b), k) == if HasKey(b, k) then Get(b, k) else Get(a, k)
  {
    forall k ensures Get(Assign(a, b), k) == if HasKey(b, k) then Get(b, k) else Get(a, k) {
      GetAssign(a, b, k);
    }
  }

  /** A prompt with no `{` is returned as written, whatever the variables. */
  lemma PromptWithoutBraces(m: Manager, name: string, user: Fields, c: Clock)
    requires m.BuildPromptSpec(name, user, c).Ok?
    requires '{' !in Prop(m.templates[name], "prompt").s
    ensures m.BuildPromptSpec(name, user, c).value.prompt == Prop(m.templates[name], "prompt").s
  {
    var s := Prop(m.templates[name], "prompt").s;
    var vars := Prepared(m.templates[name], user, c).value;
    forall i | 0 <= i < |vars| ensures !Contains(s, Placeholder(vars[i].0)) {
      NoBraceNoPlaceholder(s, vars[i].0);
    }
  }
}
