/** Resolving an agent profile from its model, a base profile and a role overlay. */
module Profiles {
  import opened Prelude
  import opened Text
  import NameList

  datatype Result<+T> = Ok(value: T) | Err(error: Error)

  /** Profiles are named `primary`, `subagent_defaults` or `roles.` followed by the role. */
  datatype Name = PrimaryName | DefaultsName | RoleNamed(role: string)

  datatype Error =
    | InvalidConfig
    | MissingModel(profile: Name)
    | UnknownModel(alias: string)
    | MissingSandbox(profile: Name)
    | ParamsNotObject
    | InvalidContextWindow(profile: Name)
    | InvalidMaxOutput(profile: Name)
    | InvalidCompactTrigger(profile: Name)
    | InvalidCompactPreserve(profile: Name)

  datatype Json =
    | Null
    | Boolean(bool)
    | Number(real)
    | Text(string)
    | Array(seq<Json>)
    | Object(fields: map<string, Json>)

  datatype SandboxMode = ReadOnly | WorkspaceWrite | DangerFullAccess

  datatype Model = Model(
    name: string, context: nat, maxOutput: nat, trigger: nat, preserve: Option<nat>,
    temperature: Option<real>, effort: Option<string>, efforts: Option<seq<string>>,
    params: Option<Json>)

  datatype Profile = Profile(
    model: Option<string>, prompt: Option<string>, effort: Option<string>,
    tools: Option<seq<string>>, servers: Option<seq<string>>, skills: Option<seq<string>>,
    temperature: Option<real>, maxOutput: Option<nat>, context: Option<nat>,
    trigger: Option<nat>, preserve: Option<nat>, params: Option<Json>,
    autoCompact: Option<bool>, sandbox: Option<SandboxMode>)

  datatype Config = Config(
    globalPrompt: Option<string>, models: map<string, Model>,
    primary: Profile, subagentDefaults: Profile, roles: map<string, Profile>,
    internalModels: seq<Option<string>>, internalParams: seq<Option<Json>>)

  datatype Resolved = Resolved(
    name: Name, alias: string, globalPrompt: Option<string>, prompt: Option<string>,
    effort: Option<string>, tools: Option<seq<string>>, servers: Option<seq<string>>,
    skills: Option<seq<string>>, temperature: Option<real>, maxOutput: nat, context: nat,
    trigger: nat, preserve: nat, params: Option<Json>, autoCompact: bool, sandbox: SandboxMode)

  const NO_LAYER := Profile(None, None, None, None, None, None, None, None, None, None, None, None, None, None)
  const DEFAULT_LANE_ALIAS := "gpt_5_4_default"
  const DEFAULT_LANE_MODEL := "gpt-5.4"

  // ----- the pieces -----

  function Or<T>(a: Option<T>, b: Option<T>): Option<T> { if a.Some? then a else b }

  function OrElse<T>(a: Option<T>, b: T): T { if a.Some? then a.value else b }

  /** Blank text counts as no text. */
  function Clean(text: Option<string>): Option<string> {
    if text.Some? && Trim(text.value) != "" then Some(Trim(text.value)) else None
  }

  /** A list that is there stays there, even when nothing in it survives. */
  function CleanList(names: Option<seq<string>>): Option<seq<string>> {
    if names.Some? then Some(NameList.Normalized(names.value)) else None
  }

  predicate IsObject(v: Option<Json>) { v.Some? ==> v.value.Object? }

  function Fields(v: Option<Json>): map<string, Json> {
    if v.Some? && v.value.Object? then v.value.fields else map[]
  }

  function Packed(fields: map<string, Json>): Option<Json> {
    if fields == map[] then None else Some(Object(fields))
  }

  // ----- merging parameters -----

  function Merged(base: Option<Json>, middle: Option<Json>, overlay: Option<Json>): (r: Result<Option<Json>>) {
    if IsObject(base) && IsObject(middle) && IsObject(overlay)
    then Ok(Packed(Fields(base) + Fields(middle) + Fields(overlay)))
    else Err(ParamsNotObject)
  }

  method InsertAll(merged: map<string, Json>, layer: map<string, Json>) returns (r: map<string, Json>)
    ensures r == merged + layer
  {
    r := merged;
    var left := layer.Keys;
    while left != {}
      invariant left <= layer.Keys
      invariant r == merged + (map key | key in layer.Keys - left :: layer[key])
      decreases left
    {
      var key :| key in left;
      r := r[key := layer[key]];
      left := left - {key};
    }
    assert (map key | key in layer.Keys - left :: layer[key]) == layer;
  }

  method MergeJsonObjects(base: Option<Json>, middle: Option<Json>, overlay: Option<Json>)
    returns (r: Result<Option<Json>>)
    ensures r == Merged(base, middle, overlay)
  {
    if !IsObject(base) {
      return Err(ParamsNotObject);
    }
    var merged := Fields(base);
    var layers := [middle, overlay];
    for i := 0 to 2
      invariant forall k :: 0 <= k < i ==> IsObject(layers[k])
      invariant merged == Fields(base) + (if i > 0 then Fields(middle) else map[])
                                       + (if i > 1 then Fields(overlay) else map[])
    {
      if !IsObject(layers[i]) {
        return Err(ParamsNotObject);
      }
      if layers[i].Some? {
        merged := InsertAll(merged, layers[i].value.fields);
      }
    }
    assert IsObject(layers[0]) && IsObject(layers[1]);
    r := Ok(Packed(merged));
  }

  function Lookup(v: Option<Json>, key: string): Option<Json> {
    if key in Fields(v) then Some(Fields(v)[key]) else None
  }

  /** `v` is what the overlay says, or if it says nothing the base, or if that says nothing the model. */
  ghost predicate Wins<T>(over: Option<T>, base: Option<T>, model: Option<T>, v: Option<T>) {
    && (over.Some? ==> v == over)
    && (over.None? && base.Some? ==> v == base)
    && (over.None? && base.None? ==> v == model)
  }

  /** Key by key the overlay wins, then the middle, then the base; nothing else is there. */
  lemma MergedLookup(base: Option<Json>, middle: Option<Json>, overlay: Option<Json>, key: string)
    requires Merged(base, middle, overlay).Ok?
    ensures Wins(Lookup(overlay, key), Lookup(middle, key), Lookup(base, key),
                 Lookup(Merged(base, middle, overlay).value, key))
  {
  }

  lemma LookupIff(v: Option<Json>, key: string, field: Json)
    ensures Lookup(v, key) == Some(field) <==>
            v.Some? && v.value.Object? && key in v.value.fields && v.value.fields[key] == field
  {
  }

  /** Merging fails exactly if some layer is there and is no object. */
  lemma MergedOkIff(base: Option<Json>, middle: Option<Json>, overlay: Option<Json>)
    ensures Merged(base, middle, overlay).Ok? <==>
            && (base.None? || base.value.Object?) && (middle.None? || middle.value.Object?)
            && (overlay.None? || overlay.value.Object?)
    ensures Merged(base, middle, overlay).Err? ==> Merged(base, middle, overlay) == Err(ParamsNotObject)
  {
  }

  /** There is no parameter object exactly when no layer names a key. */
  lemma MergedAbsent(base: Option<Json>, middle: Option<Json>, overlay: Option<Json>)
    requires Merged(base, middle, overlay).Ok?
    ensures Merged(base, middle, overlay).value == None <==>
            forall key :: Lookup(base, key).None? && Lookup(middle, key).None? && Lookup(overlay, key).None?
  {
    var all := Fields(base) + Fields(middle) + Fields(overlay);
    if all != map[] {
      var key :| key in all;
      assert !(Lookup(base, key).None? && Lookup(middle, key).None? && Lookup(overlay, key).None?);
    } else {
      forall key ensures Lookup(base, key).None? && Lookup(middle, key).None? && Lookup(overlay, key).None? {
        assert key !in all;
      }
    }
  }

  // ----- resolving -----

  predicate AliasChar(ch: char) {
    'a' <= ch <= 'z' || '0' <= ch <= '9' || ch == '_' || ch == '-'
  }

  predicate ValidAlias(alias: string) {
    Trim(alias) != "" && forall ch :: ch in alias ==> AliasChar(ch)
  }

  /** A model's own effort is one of the efforts it lists, if it lists any. */
  predicate ValidEffort(effort: Option<string>, listed: Option<seq<string>>) {
    var efforts := if listed.Some? then NameList.Normalized(listed.value) else [];
    Clean(effort).Some? && efforts != [] ==> Clean(effort).value in efforts
  }

  predicate ValidModel(m: Model) {
    && Trim(m.name) != ""
    && 0 < m.trigger < m.context
    && 0 < m.maxOutput <= m.context
    && (m.preserve.Some? ==> m.preserve.value > 0)
    && IsObject(m.params)
    && ValidEffort(m.effort, m.efforts)
  }

  predicate ValidRole(c: Config, role: string)
    requires role in c.roles
  {
    && Trim(role) != ""
    && (c.roles[role].model.Some? ==> c.roles[role].model.value in c.models)
    && IsObject(c.roles[role].params)
  }

  predicate ValidEntry(models: map<string, Model>, alias: string)
    requires alias in models
  {
    ValidAlias(alias) && ValidModel(models[alias])
  }

  predicate ValidModels(models: map<string, Model>) {
    && (forall alias :: alias in models ==> ValidEntry(models, alias))
    && DEFAULT_LANE_ALIAS in models
    && models[DEFAULT_LANE_ALIAS].name == DEFAULT_LANE_MODEL
  }

  predicate ValidRoles(c: Config) {
    forall role :: role in c.roles ==> ValidRole(c, role)
  }

  predicate Complete(p: Profile) {
    p.model.Some? && p.sandbox.Some? && IsObject(p.params)
  }

  predicate ValidInternal(models: seq<Option<string>>, params: seq<Option<Json>>) {
    && (forall i :: 0 <= i < |models| ==> models[i].Some?)
    && (forall i :: 0 <= i < |params| ==> IsObject(params[i]))
  }

  predicate Validates(c: Config) {
    && ValidModels(c.models)
    && Complete(c.primary) && Complete(c.subagentDefaults)
    && ValidRoles(c)
    && ValidInternal(c.internalModels, c.internalParams)
  }

  // ----- validation, check by check -----

  method ValidateChars(alias: string) returns (ok: bool)
    ensures ok <==> forall ch :: ch in alias ==> AliasChar(ch)
  {
    for i := 0 to |alias|
      invariant forall j :: 0 <= j < i ==> AliasChar(alias[j])
    {
      var ch := alias[i];
      if !('a' <= ch <= 'z') && !('0' <= ch <= '9') && ch != '_' && ch != '-' {
        assert !AliasChar(ch);
        return false;
      }
    }
    return true;
  }

  method ValidateAlias(alias: string) returns (ok: bool)
    ensures ok <==> ValidAlias(alias)
  {
    if Trim(alias) == "" {
      return false;
    }
    ok := ValidateChars(alias);
  }

  method ValidateEffort(effort: Option<string>, listed: Option<seq<string>>) returns (ok: bool)
    ensures ok <==> ValidEffort(effort, listed)
  {
    var efforts := [];
    if listed.Some? {
      efforts := NameList.NormalizeList(listed.value);
    }
    var wanted := Clean(effort);
    return wanted.None? || efforts == [] || wanted.value in efforts;
  }

  method ValidateModel(m: Model) returns (ok: bool)
    ensures ok <==> ValidModel(m)
  {
    if Trim(m.name) == "" || m.context == 0 || m.maxOutput == 0 || m.trigger == 0 {
      return false;
    }
    if m.trigger >= m.context || m.maxOutput > m.context {
      return false;
    }
    if m.preserve.Some? && m.preserve.value == 0 {
      return false;
    }
    if m.params.Some? && !m.params.value.Object? {
      return false;
    }
    ok := ValidateEffort(m.effort, m.efforts);
  }

  method ValidateEntry(models: map<string, Model>, alias: string) returns (ok: bool)
    requires alias in models
    ensures ok <==> ValidEntry(models, alias)
  {
    ok := ValidateAlias(alias);
    if ok {
      ok := ValidateModel(models[alias]);
    }
  }

  method ValidateEntries(models: map<string, Model>) returns (ok: bool)
    ensures ok <==> forall alias :: alias in models ==> ValidEntry(models, alias)
  {
    var left := models.Keys;
    while left != {}
      invariant left <= models.Keys
      invariant forall alias :: alias in models && alias !in left ==> ValidEntry(models, alias)
      decreases left
    {
      var alias :| alias in left;
      var sound := ValidateEntry(models, alias);
      if !sound {
        return false;
      }
      left := left - {alias};
    }
    return true;
  }

  method ValidateModels(models: map<string, Model>) returns (ok: bool)
    ensures ok <==> ValidModels(models)
  {
    ok := ValidateEntries(models);
    ok := ok && DEFAULT_LANE_ALIAS in models && models[DEFAULT_LANE_ALIAS].name == DEFAULT_LANE_MODEL;
  }

  method ValidateRoles(c: Config) returns (ok: bool)
    ensures ok <==> ValidRoles(c)
  {
    var left := c.roles.Keys;
    while left != {}
      invariant left <= c.roles.Keys
      invariant forall role :: role in c.roles && role !in left ==> ValidRole(c, role)
      decreases left
    {
      var role :| role in left;
      var profile := c.roles[role];
      if Trim(role) == "" || (profile.model.Some? && profile.model.value !in c.models)
         || (profile.params.Some? && !profile.params.value.Object?) {
        assert !ValidRole(c, role);
        return false;
      }
      left := left - {role};
    }
    return true;
  }

  method ValidateInternal(models: seq<Option<string>>, params: seq<Option<Json>>) returns (ok: bool)
    ensures ok <==> ValidInternal(models, params)
  {
    for i := 0 to |models|
      invariant forall j :: 0 <= j < i ==> models[j].Some?
    {
      if models[i].None? {
        return false;
      }
    }
    for i := 0 to |params|
      invariant forall j :: 0 <= j < i ==> IsObject(params[j])
    {
      if params[i].Some? && !params[i].value.Object? {
        return false;
      }
    }
    return true;
  }

  method ValidateProfile(p: Profile) returns (ok: bool)
    ensures ok <==> Complete(p)
  {
    if p.model.None? || p.sandbox.None? {
      return false;
    }
    return p.params.None? || p.params.value.Object?;
  }

  /** The checks of a configuration, one after the other, accept exactly what `Validates` describes. */
  method Validate(c: Config) returns (ok: bool)
    ensures ok <==> Validates(c)
  {
    var models := ValidateModels(c.models);
    var primary := ValidateProfile(c.primary);
    var defaults := ValidateProfile(c.subagentDefaults);
    var roles := ValidateRoles(c);
    var internal := ValidateInternal(c.internalModels, c.internalParams);
    ok := models && primary && defaults && roles && internal;
  }

  /** What resolving one profile looks at: whether the configuration validates, its models, its prompt. */
  datatype Lanes = Lanes(sound: bool, models: map<string, Model>, globalPrompt: Option<string>)

  function LanesOf(c: Config): Lanes { Lanes(Validates(c), c.models, c.globalPrompt) }

  function ResolveModel(c: Lanes, alias: string): Result<Model> {
    if !c.sound then Err(InvalidConfig)
    else if alias !in c.models then Err(UnknownModel(alias))
    else Ok(c.models[alias])
  }

  function Checked(r: Resolved): Result<Resolved> {
    if r.context == 0 then Err(InvalidContextWindow(r.name))
    else if !(0 < r.maxOutput <= r.context) then Err(InvalidMaxOutput(r.name))
    else if !(0 < r.trigger < r.context) then Err(InvalidCompactTrigger(r.name))
    else if r.preserve == 0 then Err(InvalidCompactPreserve(r.name))
    else Ok(r)
  }

  /** Every field but the parameters. */
  function Layered(c: Lanes, name: Name, alias: string, m: Model, base: Profile, over: Profile,
                   sandbox: SandboxMode, params: Option<Json>): Resolved
  {
    Resolved(
      name, alias, Clean(c.globalPrompt),
      Clean(Or(over.prompt, base.prompt)),
      Clean(Or(Or(over.effort, base.effort), Clean(m.effort))),
      CleanList(Or(over.tools, base.tools)),
      CleanList(Or(over.servers, base.servers)),
      CleanList(Or(over.skills, base.skills)),
      Or(Or(over.temperature, base.temperature), m.temperature),
      OrElse(Or(over.maxOutput, base.maxOutput), m.maxOutput),
      OrElse(Or(over.context, base.context), m.context),
      OrElse(Or(over.trigger, base.trigger), m.trigger),
      OrElse(Or(over.preserve, base.preserve), OrElse(m.preserve, 8)),
      params,
      OrElse(Or(over.autoCompact, base.autoCompact), true),
      sandbox)
  }

  function Resolve(c: Lanes, name: Name, base: Profile, overlay: Option<Profile>): (r: Result<Resolved>) {
    var over := OrElse(overlay, NO_LAYER);
    var alias := Or(over.model, base.model);
    if alias.None? then Err(MissingModel(name))
    else
      var model := ResolveModel(c, alias.value);
      if model.Err? then Err(model.error)
      else
        var sandbox := Or(over.sandbox, base.sandbox);
        if sandbox.None? then Err(MissingSandbox(name))
        else
          var params := Merged(model.value.params, base.params, over.params);
          if params.Err? then Err(params.error)
          else Checked(Layered(c, name, alias.value, model.value, base, over, sandbox.value, params.value))
  }

  function ResolvePrimary(c: Config): Result<Resolved> {
    if !Validates(c) then Err(InvalidConfig) else Resolve(LanesOf(c), PrimaryName, c.primary, None)
  }

  /** The role a request selects: its trimmed name, unless that is blank. */
  function RoleKey(role: Option<string>): Option<string> { Clean(role) }

  function RoleOverlay(roles: map<string, Profile>, role: Option<string>): Option<Profile> {
    var key := RoleKey(role);
    if key.Some? && key.value in roles then Some(roles[key.value]) else None
  }

  function RoleName(role: Option<string>): Name {
    if RoleKey(role).Some? then RoleNamed(RoleKey(role).value) else DefaultsName
  }

  function ResolveRole(
    c: Lanes, defaults: Profile, roles: map<string, Profile>, role: Option<string>): Result<Resolved>
  {
    Resolve(c, RoleName(role), defaults, RoleOverlay(roles, role))
  }

  function ResolveSubagent(c: Config, role: Option<string>): Result<Resolved> {
    if !Validates(c) then Err(InvalidConfig) else ResolveRole(LanesOf(c), c.subagentDefaults, c.roles, role)
  }

  // ----- the layering law -----

  /** Two parameter layers as one; a layer that is no object stays in the way. */
  function FlatParams(base: Option<Json>, over: Option<Json>): Option<Json> {
    if !IsObject(base) then base
    else if !IsObject(over) then over
    else Packed(Fields(base) + Fields(over))
  }

  /** The single profile that says what `over` on top of `base` says. */
  function Flatten(base: Profile, over: Profile): Profile {
    Profile(
      Or(over.model, base.model), Or(over.prompt, base.prompt), Or(over.effort, base.effort),
      Or(over.tools, base.tools), Or(over.servers, base.servers), Or(over.skills, base.skills),
      Or(over.temperature, base.temperature), Or(over.maxOutput, base.maxOutput),
      Or(over.context, base.context), Or(over.trigger, base.trigger),
      Or(over.preserve, base.preserve), FlatParams(base.params, over.params),
      Or(over.autoCompact, base.autoCompact), Or(over.sandbox, base.sandbox))
  }

  lemma FlatParamsMerge(model: Option<Json>, base: Option<Json>, over: Option<Json>)
    ensures Merged(model, FlatParams(base, over), None) == Merged(model, base, over)
  {
    if IsObject(model) && IsObject(base) && IsObject(over) {
      var m, b, o := Fields(model), Fields(base), Fields(over);
      assert Fields(FlatParams(base, over)) == b + o;
      assert m + (b + o) + map[] == m + b + o;
    }
  }

  /** Resolving through an overlay is resolving the flattened profile, errors included. */
  lemma LayeringLaw(c: Lanes, name: Name, base: Profile, over: Profile)
    ensures Resolve(c, name, base, Some(over)) == Resolve(c, name, Flatten(base, over), None)
  {
    var alias := Or(over.model, base.model);
    if alias.Some? && alias.value in c.models {
      FlatParamsMerge(c.models[alias.value].params, base.params, over.params);
    }
  }

  lemma FlatParamsAssociative(a: Option<Json>, b: Option<Json>, d: Option<Json>)
    ensures FlatParams(FlatParams(a, b), d) == FlatParams(a, FlatParams(b, d))
  {
    if IsObject(a) && IsObject(b) && IsObject(d) {
      assert Fields(a) + Fields(b) + Fields(d) == Fields(a) + (Fields(b) + Fields(d));
    }
  }

  /** Stacks of layers need no brackets. */
  lemma FlattenAssociative(a: Profile, b: Profile, d: Profile)
    ensures Flatten(Flatten(a, b), d) == Flatten(a, Flatten(b, d))
  {
    FlatParamsAssociative(a.params, b.params, d.params);
  }

  // ----- what the resolved profile holds -----

  lemma ResolvedParams(c: Lanes, name: Name, base: Profile, over: Profile, key: string)
    requires Resolve(c, name, base, Some(over)).Ok?
    ensures var r := Resolve(c, name, base, Some(over)).value;
            Wins(Lookup(over.params, key), Lookup(base.params, key), Lookup(c.models[r.alias].params, key),
                 Lookup(r.params, key))
  {
    MergedLookup(c.models[Or(over.model, base.model).value].params, base.params, over.params, key);
  }

  /** `shown` holds the first occurrences of the names in `stated`; a list that is stated is there, even if empty. */
  ghost predicate IsNormalForm(stated: Option<seq<string>>, shown: Option<seq<string>>) {
    && (stated.Some? <==> shown.Some?)
    && (stated.Some? ==> exists kept :: NameList.HoldsFirsts(stated.value, kept, shown.value))
  }

  lemma CleanListMeans(stated: Option<seq<string>>)
    ensures IsNormalForm(stated, CleanList(stated))
  {
    if stated.Some? {
      NameList.NormalizedMeans(stated.value, NameList.Normalized(stated.value));
    }
  }

  lemma FirstStated(over: Option<seq<string>>, base: Option<seq<string>>, stated: Option<seq<string>>)
    ensures Wins(over, base, None, stated) ==> IsNormalForm(stated, CleanList(Or(over, base)))
  {
    CleanListMeans(stated);
  }

  /** The first allowlist stated is the whole allowlist; it is not merged with the one below. */
  lemma StatedListReplaces(c: Lanes, name: Name, base: Profile, over: Profile, stated: Option<seq<string>>)
    requires Resolve(c, name, base, Some(over)).Ok?
    ensures var r := Resolve(c, name, base, Some(over)).value;
            && (Wins(over.tools, base.tools, None, stated) ==> IsNormalForm(stated, r.tools))
            && (Wins(over.servers, base.servers, None, stated) ==> IsNormalForm(stated, r.servers))
            && (Wins(over.skills, base.skills, None, stated) ==> IsNormalForm(stated, r.skills))
  {
    FirstStated(over.tools, base.tools, stated);
    FirstStated(over.servers, base.servers, stated);
    FirstStated(over.skills, base.skills, stated);
  }

  lemma CleanIdempotent(text: Option<string>)
    ensures Clean(Clean(text)) == Clean(text)
    ensures Clean(text).None? <==> text.None? || forall i :: 0 <= i < |text.value| ==> IsWhitespace(text.value[i])
  {
    if text.Some? {
      CleanTwice(text.value);
    }
  }

  lemma CleanTwice(text: string)
    ensures Clean(Clean(Some(text))) == Clean(Some(text))
    ensures Clean(Some(text)).None? <==> forall i :: 0 <= i < |text| ==> IsWhitespace(text[i])
  {
    TrimIdempotent(text);
  }

  lemma ResolvedTextsAre(c: Lanes, name: Name, base: Profile, over: Profile, r: Resolved)
    requires Resolve(c, name, base, Some(over)) == Ok(r)
    ensures r.alias in c.models
    ensures r.globalPrompt == Clean(c.globalPrompt)
    ensures r.prompt == Clean(Or(Or(over.prompt, base.prompt), Clean(None)))
    ensures r.effort == Clean(Or(Or(over.effort, base.effort), Clean(c.models[r.alias].effort)))
  {
  }

  lemma TextHides(over: Option<string>, base: Option<string>, model: Option<string>, raw: Option<string>)
    ensures Wins(over, base, model, raw) ==> Clean(Or(Or(over, base), Clean(model))) == Clean(raw)
  {
    CleanIdempotent(model);
  }

  /** Text stated by a layer hides what lies below, even when it is blank and so resolves to nothing. */
  lemma StatedTextHides(c: Lanes, name: Name, base: Profile, over: Profile, r: Resolved, raw: Option<string>)
    requires Resolve(c, name, base, Some(over)) == Ok(r)
    ensures r.alias in c.models
    ensures Wins(over.prompt, base.prompt, None, raw) ==> r.prompt == Clean(raw)
    ensures Wins(over.effort, base.effort, c.models[r.alias].effort, raw) ==> r.effort == Clean(raw)
  {
    ResolvedTextsAre(c, name, base, over, r);
    TextHides(over.prompt, base.prompt, None, raw);
    TextHides(over.effort, base.effort, c.models[r.alias].effort, raw);
  }

  // ----- all fields at once -----

  /** `shown` is `raw` without the whitespace at its ends, and nothing if nothing is left. */
  ghost predicate IsCleaned(raw: Option<string>, shown: Option<string>) {
    && (shown.None? <==> raw.None? || Blank(raw.value))
    && (shown.Some? && raw.Some? ==> IsTrimmed(raw.value, shown.value))
  }

  lemma CleanMeans(raw: Option<string>)
    ensures IsCleaned(raw, Clean(raw))
  {
    if raw.Some? {
      TrimIsTrimmed(raw.value);
    }
  }

  ghost predicate TextFrom(
    over: Option<string>, base: Option<string>, model: Option<string>, shown: Option<string>)
  {
    exists raw :: Wins(over, base, model, raw) && IsCleaned(raw, shown)
  }

  ghost predicate ListFrom(over: Option<seq<string>>, base: Option<seq<string>>, shown: Option<seq<string>>) {
    exists stated :: Wins(over, base, None, stated) && IsNormalForm(stated, shown)
  }

  ghost predicate ParamsFrom(over: Option<Json>, base: Option<Json>, model: Option<Json>, shown: Option<Json>) {
    && (shown.Some? ==> shown.value.Object? && shown.value.fields != map[])
    && forall key :: Wins(Lookup(over, key), Lookup(base, key), Lookup(model, key), Lookup(shown, key))
  }

  /** Eight messages unless the model says otherwise. */
  ghost function PreserveOf(m: Model): (n: nat)
    ensures m.preserve.Some? ==> n == m.preserve.value
    ensures m.preserve.None? ==> n == 8
  {
    if m.preserve.None? then 8 else m.preserve.value
  }

  ghost predicate LimitsFrom(models: map<string, Model>, over: Profile, base: Profile, r: Resolved) {
    && r.alias in models
    && Wins(over.model, base.model, None, Some(r.alias))
    && Wins(over.sandbox, base.sandbox, None, Some(r.sandbox))
    && Wins(over.context, base.context, Some(models[r.alias].context), Some(r.context))
    && Wins(over.maxOutput, base.maxOutput, Some(models[r.alias].maxOutput), Some(r.maxOutput))
    && Wins(over.trigger, base.trigger, Some(models[r.alias].trigger), Some(r.trigger))
    && Wins(over.preserve, base.preserve, Some(PreserveOf(models[r.alias])), Some(r.preserve))
    && Wins(over.autoCompact, base.autoCompact, Some(true), Some(r.autoCompact))
    && Wins(over.temperature, base.temperature, models[r.alias].temperature, r.temperature)
  }

  ghost predicate TextsFrom(
    models: map<string, Model>, prompt: Option<string>, over: Profile, base: Profile, r: Resolved)
  {
    && r.alias in models
    && IsCleaned(prompt, r.globalPrompt)
    && TextFrom(over.prompt, base.prompt, None, r.prompt)
    && TextFrom(over.effort, base.effort, models[r.alias].effort, r.effort)
    && ListFrom(over.tools, base.tools, r.tools)
    && ListFrom(over.servers, base.servers, r.servers)
    && ListFrom(over.skills, base.skills, r.skills)
  }

  /** Every field of the profile is what the first layer says that says anything, and the model says the rest. */
  ghost predicate FromLayers(
    models: map<string, Model>, prompt: Option<string>, over: Profile, base: Profile, r: Resolved)
  {
    && 0 < r.trigger < r.context && 0 < r.maxOutput <= r.context && 0 < r.preserve
    && LimitsFrom(models, over, base, r)
    && TextsFrom(models, prompt, over, base, r)
    && ParamsFrom(over.params, base.params, models[r.alias].params, r.params)
  }

  /** Each field comes from the overlay, else the base, else the model, and the limits agree. */
  lemma ResolvedFields(c: Lanes, name: Name, base: Profile, over: Profile, r: Resolved)
    requires Resolve(c, name, base, Some(over)) == Ok(r)
    ensures LimitsFrom(c.models, over, base, r)
    ensures r.name == name && 0 < r.trigger < r.context && 0 < r.maxOutput <= r.context && 0 < r.preserve
  {
  }

  lemma ResolvedTexts(c: Lanes, name: Name, base: Profile, over: Profile, r: Resolved)
    requires Resolve(c, name, base, Some(over)) == Ok(r)
    ensures r.alias in c.models
    ensures IsCleaned(c.globalPrompt, r.globalPrompt)
    ensures TextFrom(over.prompt, base.prompt, None, r.prompt)
    ensures TextFrom(over.effort, base.effort, c.models[r.alias].effort, r.effort)
  {
    ResolvedTextsAre(c, name, base, over, r);
    CleanMeans(c.globalPrompt);
    TextIsFrom(over.prompt, base.prompt, None);
    TextIsFrom(over.effort, base.effort, c.models[r.alias].effort);
  }

  lemma ResolvedLists(c: Lanes, name: Name, base: Profile, over: Profile, r: Resolved)
    requires Resolve(c, name, base, Some(over)) == Ok(r)
    ensures ListFrom(over.tools, base.tools, r.tools)
    ensures ListFrom(over.servers, base.servers, r.servers)
    ensures ListFrom(over.skills, base.skills, r.skills)
  {
    ListIsFrom(over.tools, base.tools);
    ListIsFrom(over.servers, base.servers);
    ListIsFrom(over.skills, base.skills);
  }

  lemma TextIsFrom(a: Option<string>, b: Option<string>, d: Option<string>)
    ensures TextFrom(a, b, d, Clean(Or(Or(a, b), Clean(d))))
  {
    var raw := Or(Or(a, b), d);
    TextHides(a, b, d, raw);
    CleanMeans(raw);
    assert Wins(a, b, d, raw);
  }

  lemma ListIsFrom(a: Option<seq<string>>, b: Option<seq<string>>)
    ensures ListFrom(a, b, CleanList(Or(a, b)))
  {
    CleanListMeans(Or(a, b));
    assert Wins(a, b, None, Or(a, b));
  }

  lemma ParamsAreFrom(over: Option<Json>, base: Option<Json>, model: Option<Json>, shown: Option<Json>)
    requires Merged(model, base, over) == Ok(shown)
    ensures ParamsFrom(over, base, model, shown)
  {
    forall key
      ensures Wins(Lookup(over, key), Lookup(base, key), Lookup(model, key), Lookup(shown, key))
    {
      MergedLookup(model, base, over, key);
    }
  }

  lemma ResolvedParamsFrom(c: Lanes, name: Name, base: Profile, over: Profile, r: Resolved)
    requires Resolve(c, name, base, Some(over)) == Ok(r)
    ensures r.alias in c.models && ParamsFrom(over.params, base.params, c.models[r.alias].params, r.params)
  {
    ParamsAreFrom(over.params, base.params, c.models[r.alias].params, r.params);
  }

  lemma ResolvedHolds(c: Lanes, name: Name, base: Profile, over: Profile, r: Resolved)
    requires Resolve(c, name, base, Some(over)) == Ok(r)
    ensures r.name == name
    ensures FromLayers(c.models, c.globalPrompt, over, base, r)
  {
    ResolvedFields(c, name, base, over, r);
    ResolvedTexts(c, name, base, over, r);
    ResolvedLists(c, name, base, over, r);
    ResolvedParamsFrom(c, name, base, over, r);
  }

  /** The limits a resolution would hand out. */
  predicate LimitsAgree(m: Model, base: Profile, over: Profile) {
    var context := OrElse(Or(over.context, base.context), m.context);
    && 0 < OrElse(Or(over.maxOutput, base.maxOutput), m.maxOutput) <= context
    && 0 < OrElse(Or(over.trigger, base.trigger), m.trigger) < context
    && 0 < OrElse(Or(over.preserve, base.preserve), OrElse(m.preserve, 8))
  }

  lemma ResolvesIff(c: Lanes, name: Name, base: Profile, over: Profile)
    ensures Resolve(c, name, base, Some(over)).Ok? <==>
            && c.sound
            && Or(over.model, base.model).Some? && Or(over.model, base.model).value in c.models
            && Or(over.sandbox, base.sandbox).Some?
            && IsObject(c.models[Or(over.model, base.model).value].params)
            && IsObject(base.params) && IsObject(over.params)
            && LimitsAgree(c.models[Or(over.model, base.model).value], base, over)
  {
  }

  lemma EmptyLayer(c: Lanes, name: Name, base: Profile)
    ensures Resolve(c, name, base, Some(NO_LAYER)) == Resolve(c, name, base, None)
  {
  }

  ghost predicate ProfileFits(models: map<string, Model>, defaults: Profile, over: Profile) {
    && Or(over.model, defaults.model).Some?
    && Or(over.model, defaults.model).value in models
    && LimitsAgree(models[Or(over.model, defaults.model).value], defaults, over)
  }

  lemma FitsIff(c: Lanes, name: Name, defaults: Profile, over: Profile)
    requires c.sound && defaults.sandbox.Some? && IsObject(defaults.params) && IsObject(over.params)
    requires forall alias :: alias in c.models ==> IsObject(c.models[alias].params)
    ensures Resolve(c, name, defaults, Some(over)).Ok? <==> ProfileFits(c.models, defaults, over)
  {
    ResolvesIff(c, name, defaults, over);
  }

  // ----- roles -----

  /** A request asks for `key`: its text without the whitespace at its ends, if anything is left. */
  ghost predicate Asks(role: Option<string>, key: string) {
    role.Some? && key != "" && IsTrimmed(role.value, key)
  }

  ghost predicate SaysNothing(p: Profile) {
    && p.model.None? && p.prompt.None? && p.effort.None? && p.tools.None? && p.servers.None? && p.skills.None?
    && p.temperature.None? && p.maxOutput.None? && p.context.None? && p.trigger.None? && p.preserve.None?
    && p.params.None? && p.autoCompact.None? && p.sandbox.None?
  }

  ghost predicate AsksConfigured(roles: map<string, Profile>, role: Option<string>, key: string) {
    Asks(role, key) && key in roles
  }

  /** `over` is the profile of the role that is asked for, and empty if no configured role is. */
  ghost predicate Selects(roles: map<string, Profile>, role: Option<string>, over: Profile) {
    if exists key :: AsksConfigured(roles, role, key)
    then exists key :: AsksConfigured(roles, role, key) && over == roles[key]
    else SaysNothing(over)
  }

  ghost predicate IsNameFor(role: Option<string>, name: Name) {
    if exists key :: Asks(role, key) then exists key :: Asks(role, key) && name == RoleNamed(key)
    else name == DefaultsName
  }

  lemma AsksIff(role: Option<string>, key: string)
    ensures Asks(role, key) <==> RoleKey(role) == Some(key)
  {
    if role.Some? {
      TrimIff(role.value, key);
    }
  }

  lemma NothingIsNoLayer(p: Profile)
    ensures SaysNothing(p) <==> p == NO_LAYER
  {
  }

  lemma SelectedIs(roles: map<string, Profile>, role: Option<string>, over: Profile)
    requires Selects(roles, role, over)
    ensures over == OrElse(RoleOverlay(roles, role), NO_LAYER)
  {
    var asked := RoleKey(role);
    if asked.Some? { AsksIff(role, asked.value); }
    if key :| AsksConfigured(roles, role, key) {
      forall other | AsksConfigured(roles, role, other) ensures Some(other) == asked { AsksIff(role, other); }
    } else {
      assert asked.Some? ==> !AsksConfigured(roles, role, asked.value);
      NothingIsNoLayer(over);
    }
  }

  lemma RoleNameIs(role: Option<string>)
    ensures IsNameFor(role, RoleName(role))
  {
    var asked := RoleKey(role);
    if asked.Some? { AsksIff(role, asked.value); }
    if key :| Asks(role, key) { AsksIff(role, key); }
  }

  lemma RoleVia(c: Lanes, defaults: Profile, roles: map<string, Profile>, role: Option<string>, over: Profile)
    requires Selects(roles, role, over)
    ensures ResolveRole(c, defaults, roles, role) == Resolve(c, RoleName(role), defaults, Some(over))
  {
    SelectedIs(roles, role, over);
    EmptyLayer(c, RoleName(role), defaults);
  }

  lemma RoleHolds(c: Lanes, defaults: Profile, roles: map<string, Profile>, role: Option<string>, over: Profile)
    requires Selects(roles, role, over) && ResolveRole(c, defaults, roles, role).Ok?
    ensures IsNameFor(role, ResolveRole(c, defaults, roles, role).value.name)
    ensures FromLayers(c.models, c.globalPrompt, over, defaults, ResolveRole(c, defaults, roles, role).value)
  {
    RoleVia(c, defaults, roles, role, over);
    RoleNameIs(role);
    ResolvedHolds(c, RoleName(role), defaults, over, ResolveRole(c, defaults, roles, role).value);
  }

  /** A subagent gets the profile of the role it asks for, over the defaults, over the model. */
  lemma SubagentHolds(c: Config, role: Option<string>, over: Profile)
    requires Selects(c.roles, role, over) && ResolveSubagent(c, role).Ok?
    ensures IsNameFor(role, ResolveSubagent(c, role).value.name)
    ensures FromLayers(c.models, c.globalPrompt, over, c.subagentDefaults, ResolveSubagent(c, role).value)
  {
    RoleHolds(LanesOf(c), c.subagentDefaults, c.roles, role, over);
  }

  lemma OneIsAsked(roles: map<string, Profile>, request: string, key: string)
    requires AsksConfigured(roles, Some(request), key)
    ensures Selects(roles, Some(request), roles[key])
    ensures forall name :: IsNameFor(Some(request), name) <==> name == RoleNamed(key)
  {
    AsksIff(Some(request), key);
    forall other | Asks(Some(request), other) ensures other == key { AsksIff(Some(request), other); }
  }

  /** Asking for a configured role by its name, with any whitespace around it, uses that role. */
  lemma RoleIsUsed(c: Config, request: string, key: string)
    requires key in c.roles && key != "" && IsTrimmed(request, key) && ResolveSubagent(c, Some(request)).Ok?
    ensures ResolveSubagent(c, Some(request)).value.name == RoleNamed(key)
    ensures FromLayers(
              c.models, c.globalPrompt, c.roles[key], c.subagentDefaults, ResolveSubagent(c, Some(request)).value)
  {
    OneIsAsked(c.roles, request, key);
    SubagentHolds(c, Some(request), c.roles[key]);
  }

  lemma PrimaryHolds(c: Config, over: Profile)
    requires ResolvePrimary(c).Ok? && SaysNothing(over)
    ensures ResolvePrimary(c).value.name == PrimaryName
    ensures FromLayers(c.models, c.globalPrompt, over, c.primary, ResolvePrimary(c).value)
  {
    NothingIsNoLayer(over);
    EmptyLayer(LanesOf(c), PrimaryName, c.primary);
    ResolvedHolds(LanesOf(c), PrimaryName, c.primary, over, ResolvePrimary(c).value);
  }

  /** What validation promises to a resolution. */
  ghost predicate Prepared(c: Lanes, base: Profile) {
    && c.sound && base.model.Some? && base.sandbox.Some? && IsObject(base.params)
    && forall alias :: alias in c.models ==> IsObject(c.models[alias].params)
  }

  lemma ValidatedDefaults(c: Config)
    requires Validates(c)
    ensures Prepared(LanesOf(c), c.subagentDefaults) && Prepared(LanesOf(c), c.primary)
  {
  }

  lemma ValidatedRole(c: Config, role: Option<string>, over: Profile)
    requires Validates(c) && Selects(c.roles, role, over)
    ensures (over.model.Some? ==> over.model.value in c.models) && IsObject(over.params)
  {
    if key :| AsksConfigured(c.roles, role, key) && over == c.roles[key] {
      assert ValidRole(c, key);
    }
  }

  lemma RoleFitsIff(c: Lanes, defaults: Profile, roles: map<string, Profile>, role: Option<string>, over: Profile)
    requires Prepared(c, defaults) && Selects(roles, role, over) && IsObject(over.params)
    ensures ResolveRole(c, defaults, roles, role).Ok? <==> ProfileFits(c.models, defaults, over)
  {
    RoleVia(c, defaults, roles, role, over);
    FitsIff(c, RoleName(role), defaults, over);
  }

  /**
   Exactly when a subagent resolves. A role's own model was checked with the
   configuration; the default profile's model was not, and neither were the limits.
   */
  lemma SubagentResolvesIff(c: Config, role: Option<string>, over: Profile)
    requires Validates(c) && Selects(c.roles, role, over)
    ensures ResolveSubagent(c, role).Ok? <==> ProfileFits(c.models, c.subagentDefaults, over)
    ensures over.model.Some? ==> over.model.value in c.models
  {
    ValidatedRole(c, role, over);
    ValidatedDefaults(c);
    RoleFitsIff(LanesOf(c), c.subagentDefaults, c.roles, role, over);
  }

  /** Likewise for the primary agent, whose model is not checked with the configuration either. */
  lemma PrimaryResolvesIff(c: Config, over: Profile)
    requires Validates(c) && SaysNothing(over)
    ensures ResolvePrimary(c).Ok? <==> ProfileFits(c.models, c.primary, over)
  {
    ValidatedDefaults(c);
    NothingIsNoLayer(over);
    EmptyLayer(LanesOf(c), PrimaryName, c.primary);
    FitsIff(LanesOf(c), PrimaryName, c.primary, over);
  }

  function RelabelError(error: Error, name: Name): Error {
    match error
    case MissingModel(_) => MissingModel(name)
    case MissingSandbox(_) => MissingSandbox(name)
    case InvalidContextWindow(_) => InvalidContextWindow(name)
    case InvalidMaxOutput(_) => InvalidMaxOutput(name)
    case InvalidCompactTrigger(_) => InvalidCompactTrigger(name)
    case InvalidCompactPreserve(_) => InvalidCompactPreserve(name)
    case _ => error
  }

  function Relabel(r: Result<Resolved>, name: Name): Result<Resolved> {
    match r
    case Ok(resolved) => Ok(resolved.(name := name))
    case Err(error) => Err(RelabelError(error, name))
  }

  lemma LayeredLabel(
    c: Lanes, name: Name, other: Name, alias: string, m: Model, base: Profile, over: Profile,
    sandbox: SandboxMode, params: Option<Json>)
    ensures Checked(Layered(c, other, alias, m, base, over, sandbox, params))
            == Relabel(Checked(Layered(c, name, alias, m, base, over, sandbox, params)), other)
  {
  }

  lemma NameIsALabel(c: Lanes, name: Name, other: Name, base: Profile, overlay: Option<Profile>)
    ensures Resolve(c, other, base, overlay) == Relabel(Resolve(c, name, base, overlay), other)
  {
    var over := OrElse(overlay, NO_LAYER);
    var alias, sandbox := Or(over.model, base.model), Or(over.sandbox, base.sandbox);
    if alias.Some? && alias.value in c.models && sandbox.Some? {
      var m := c.models[alias.value];
      var params := Merged(m.params, base.params, over.params);
      if params.Ok? {
        LayeredLabel(c, name, other, alias.value, m, base, over, sandbox.value, params.value);
      }
    }
  }

  lemma UnknownRole(c: Lanes, defaults: Profile, roles: map<string, Profile>, role: Option<string>)
    requires forall key :: !AsksConfigured(roles, role, key)
    ensures ResolveRole(c, defaults, roles, None) == Relabel(ResolveRole(c, defaults, roles, role), DefaultsName)
  {
    var asked := RoleKey(role);
    if asked.Some? {
      AsksIff(role, asked.value);
      assert !AsksConfigured(roles, role, asked.value);
    }
    NameIsALabel(c, RoleName(role), DefaultsName, defaults, None);
  }

  /** A role that is not configured behaves like no role at all, but for the profile's name. */
  lemma UnknownRoleIsDefault(c: Config, role: Option<string>)
    requires forall key :: !AsksConfigured(c.roles, role, key)
    ensures ResolveSubagent(c, None) == Relabel(ResolveSubagent(c, role), DefaultsName)
  {
    UnknownRole(LanesOf(c), c.subagentDefaults, c.roles, role);
  }

  /** The result is a profile, under this role. */
  ghost predicate IsFor(r: Result<Resolved>, role: string) {
    r.Ok? && r.value.name == RoleNamed(role)
  }

  ghost predicate Reachable(c: Lanes, defaults: Profile, roles: map<string, Profile>, role: string) {
    exists request :: IsFor(ResolveRole(c, defaults, roles, Some(request)), role)
  }

  lemma ForOwnName(c: Lanes, defaults: Profile, roles: map<string, Profile>, request: string, role: string)
    requires IsFor(ResolveRole(c, defaults, roles, Some(request)), role)
    ensures Asks(Some(request), role)
  {
    NameIsKept(c, RoleName(Some(request)), defaults, RoleOverlay(roles, Some(request)));
    AsksIff(Some(request), role);
  }

  lemma NameIsKept(c: Lanes, name: Name, base: Profile, overlay: Option<Profile>)
    requires Resolve(c, name, base, overlay).Ok?
    ensures Resolve(c, name, base, overlay).value.name == name
  {
  }

  lemma ReachedFits(c: Lanes, defaults: Profile, roles: map<string, Profile>, request: string, role: string)
    requires Prepared(c, defaults) && role in roles && IsObject(roles[role].params)
    requires IsFor(ResolveRole(c, defaults, roles, Some(request)), role)
    ensures Trim(role) == role && ProfileFits(c.models, defaults, roles[role])
  {
    ForOwnName(c, defaults, roles, request, role);
    TrimIff(request, role);
    TrimIdempotent(request);
    OneIsAsked(roles, request, role);
    RoleFitsIff(c, defaults, roles, Some(request), roles[role]);
  }

  lemma FitsIsReached(c: Lanes, defaults: Profile, roles: map<string, Profile>, role: string)
    requires Prepared(c, defaults) && role in roles && role != "" && IsObject(roles[role].params)
    requires IsTrimmed(role, role) && ProfileFits(c.models, defaults, roles[role])
    ensures IsFor(ResolveRole(c, defaults, roles, Some(role)), role)
  {
    OneIsAsked(roles, role, role);
    RoleFitsIff(c, defaults, roles, Some(role), roles[role]);
    RoleHolds(c, defaults, roles, Some(role), roles[role]);
  }

  lemma OwnTrimIff(role: string)
    requires role != ""
    ensures IsTrimmed(role, role) <==> !IsWhitespace(role[0]) && !IsWhitespace(role[|role| - 1])
  {
    if !IsWhitespace(role[0]) && !IsWhitespace(role[|role| - 1]) {
      assert TrimmedAt(role, 0, |role|, role);
    }
  }

  lemma ReachableIff(c: Lanes, defaults: Profile, roles: map<string, Profile>, role: string)
    requires Prepared(c, defaults) && role in roles && role != "" && IsObject(roles[role].params)
    ensures Reachable(c, defaults, roles, role) <==>
            IsTrimmed(role, role) && ProfileFits(c.models, defaults, roles[role])
  {
    TrimIff(role, role);
    if request :| IsFor(ResolveRole(c, defaults, roles, Some(request)), role) {
      ReachedFits(c, defaults, roles, request, role);
    }
    if IsTrimmed(role, role) && ProfileFits(c.models, defaults, roles[role]) {
      FitsIsReached(c, defaults, roles, role);
    }
  }

  ghost predicate SomeRequestGets(c: Config, role: string) {
    exists request :: IsFor(ResolveSubagent(c, Some(request)), role)
  }

  lemma GetsIsReachable(c: Config, role: string)
    requires Validates(c)
    ensures SomeRequestGets(c, role) <==> Reachable(LanesOf(c), c.subagentDefaults, c.roles, role)
  {
    var lanes := LanesOf(c);
    forall request
      ensures ResolveSubagent(c, Some(request)) == ResolveRole(lanes, c.subagentDefaults, c.roles, Some(request)) { }
    if request :| IsFor(ResolveSubagent(c, Some(request)), role) {
      assert IsFor(ResolveRole(lanes, c.subagentDefaults, c.roles, Some(request)), role);
    }
    if request :| IsFor(ResolveRole(lanes, c.subagentDefaults, c.roles, Some(request)), role) {
      assert IsFor(ResolveSubagent(c, Some(request)), role);
    }
  }

  lemma ValidRoleFacts(c: Config, role: string)
    requires Validates(c) && role in c.roles
    ensures role != "" && IsObject(c.roles[role].params)
  {
    assert ValidRole(c, role);
  }

  /** Requests are trimmed and configured names are not, so a role with a padded name is out of reach. */
  lemma RoleReachableIff(c: Config, role: string)
    requires Validates(c) && role in c.roles
    ensures role != ""
    ensures SomeRequestGets(c, role) <==>
            && !IsWhitespace(role[0]) && !IsWhitespace(role[|role| - 1])
            && ProfileFits(c.models, c.subagentDefaults, c.roles[role])
  {
    ValidRoleFacts(c, role);
    ValidatedDefaults(c);
    GetsIsReachable(c, role);
    ReachableIff(LanesOf(c), c.subagentDefaults, c.roles, role);
    OwnTrimIff(role);
  }
}
