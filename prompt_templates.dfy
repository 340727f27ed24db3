/** The prompt-template service: a table of output-format templates keyed
    by agent type and template id, read, created, updated and deleted over
    HTTP, seeded with one default template per agent type, and kept to at
    most one default template per agent type. */
module PromptTemplates {
  import opened Wrappers
  import opened Json
  import Strs
  import Order

  const Verification := "VERIFICATION"
  const Specification := "SPECIFICATION"
  const QuerySupport := "QUERY_SUPPORT"
  const AgentTypes: seq<string> := [Verification, Specification, QuerySupport]

  const AgentTypeRequired := "agentType is required"
  const InvalidAgentType := "Invalid agentType. Must be one of: ['VERIFICATION', 'SPECIFICATION', 'QUERY_SUPPORT']"
  const NameRequired := "name is required"
  const PromptRequired := "editablePrompt is required"
  const KeyRequired := "agentType and templateId are required"
  const NotFound := "Template not found"
  const InvalidJson := "Invalid JSON body"
  const InternalError := "Internal server error"
  const NotConfigured := "DYNAMODB_PROMPT_TEMPLATES_TABLE not configured"
  const Deleted := "Template deleted successfully"
  /** The text of the `TypeError` `json.loads(None)` raises. */
  const NullBodyMessage := "the JSON object must be str, bytes or bytearray, not NoneType"

  /** The table key: (agentType, templateId). */
  type TemplateKey = (string, string)

  /** A stored template. The text fields and the default flag hold whatever
      JSON value a request supplied. */
  datatype Template = Template(agentType: string, templateId: string, name: Json, description: Json,
                               editablePrompt: Json, isDefault: Json, version: int, createdAt: int, updatedAt: int)

  type Templates = map<TemplateKey, Template>

  function KeyOf(t: Template): TemplateKey
  {
    (t.agentType, t.templateId)
  }

  datatype Body =
    | TemplateBody(template: Template)
    | Listing(agentType: string, templates: seq<Template>, count: nat)
    | MessageBody(message: string)
    | ErrorBody(error: string)
    | Failure(error: string, message: string)

  datatype Response = Response(statusCode: int, body: Body)

  /** A response together with the table it leaves behind. */
  datatype Outcome = Outcome(resp: Response, after: Templates)

  /** The request body: absent (read as "{}"), JSON null, or text that
      decodes to a value (None when it is not JSON). */
  datatype RequestBody = NoBody | NullBody | Text(decoded: Option<Json>)

  datatype Request = Request(httpMethod: string, query: map<string, string>, body: RequestBody)

  function Crash(message: string): Response
  {
    Response(500, Failure(InternalError, message))
  }

  // ---------------------------------------------------------------------
  // Python values

  /** Python truthiness of a decoded JSON value. */
  predicate Truthy(j: Json)
  {
    match j
    case JNull => false
    case JBool(b) => b
    case JNum(n) => n != 0
    case JStr(s) => s != ""
    case JArr(a) => a != []
    case JObj(f) => f != map[]
  }

  function TypeName(j: Json): string
  {
    match j
    case JNull => "NoneType"
    case JBool(_) => "bool"
    case JNum(_) => "int"
    case JStr(_) => "str"
    case JArr(_) => "list"
    case JObj(_) => "dict"
  }

  /** The text of the `AttributeError` a method call on a value of the
      wrong type raises. */
  function NoAttribute(j: Json, attr: string): string
  {
    "'" + TypeName(j) + "' object has no attribute '" + attr + "'"
  }

  /** `d.get(k, default)`. */
  function Lookup<V>(d: map<string, V>, k: string, default: V): (r: V)
    ensures k in d ==> r == d[k]
    ensures k !in d ==> r == default
  {
    if k in d then d[k] else default
  }

  /** `body.get(name, '')` of a field a string method is then called on. */
  function TextField(fields: map<string, Json>, name: string, attr: string): (r: Result<string>)
    ensures name !in fields ==> r == Ok("")
    ensures name in fields ==> (r.Ok? <==> fields[name].JStr?)
    ensures r.Ok? && name in fields ==> fields[name] == JStr(r.value)
  {
    if name !in fields then Ok("")
    else
      match fields[name]
      case JStr(s) => Ok(s)
      case j => Err(NoAttribute(j, attr))
  }

  /** A body decoded to an object, or the response that ends the request. */
  datatype Parsed = Fields(fields: map<string, Json>) | Reject(resp: Response)

  function ParseBody(b: RequestBody): (r: Parsed)
    ensures r.Reject? ==> r.resp.statusCode in {400, 500}
  {
    match b
    case NoBody => Fields(map[])
    case NullBody => Reject(Crash(NullBodyMessage))
    case Text(None) => Reject(Response(400, ErrorBody(InvalidJson)))
    case Text(Some(JObj(f))) => Fields(f)
    case Text(Some(j)) => Reject(Crash(NoAttribute(j, "get")))
  }

  /** The request's default flag is a boolean or absent. */
  predicate BoolFlag(b: RequestBody)
  {
    match ParseBody(b)
    case Reject(_) => true
    case Fields(f) => "isDefault" !in f || f["isDefault"].JBool?
  }

  // ---------------------------------------------------------------------
  // The table's invariant

  /** What the unset query matches: a flag stored as `true`. */
  predicate IsDefault(t: Template)
  {
    t.isDefault == JBool(true)
  }

  predicate Keyed(m: Templates)
  {
    forall k :: k in m ==> KeyOf(m[k]) == k
  }

  predicate BoolFlags(m: Templates)
  {
    forall k :: k in m ==> m[k].isDefault.JBool?
  }

  predicate OneDefault(m: Templates)
  {
    forall k1, k2 :: k1 in m && k2 in m && k1.0 == k2.0 && IsDefault(m[k1]) && IsDefault(m[k2]) ==> k1 == k2
  }

  /** Every item is stored under its own key, holds a boolean flag, and
      each agent type has at most one default. */
  predicate WellFormed(m: Templates)
  {
    Keyed(m) && BoolFlags(m) && OneDefault(m)
  }

  // ---------------------------------------------------------------------
  // `_unset_current_default`

  /** The keys the unset query returns: the type's templates flagged true. */
  function DefaultKeys(m: Templates, agentType: string): (r: set<TemplateKey>)
    ensures forall k :: k in r <==> k in m && k.0 == agentType && IsDefault(m[k])
  {
    set k | k in m && k.0 == agentType && IsDefault(m[k])
  }

  /** The table with the flag of the given keys set to false. */
  function Cleared(m: Templates, keys: set<TemplateKey>): (r: Templates)
    ensures r.Keys == m.Keys
  {
    map k | k in m :: if k in keys then m[k].(isDefault := JBool(false)) else m[k]
  }

  /** `_unset_current_default`: every default of the type is cleared. */
  function Unset(m: Templates, agentType: string): Templates
  {
    Cleared(m, DefaultKeys(m, agentType))
  }

  /** Unsetting leaves no default of the type, changes nothing but the
      flags of that type's defaults, and keeps the invariant. */
  lemma UnsetClears(m: Templates, agentType: string)
    ensures var r := Unset(m, agentType);
      && r.Keys == m.Keys
      && (forall k :: k in r && k.0 == agentType ==> !IsDefault(r[k]))
      && (forall k :: k in r && !(k.0 == agentType && IsDefault(m[k])) ==> r[k] == m[k])
      && (forall k :: k in r ==> r[k] == m[k].(isDefault := r[k].isDefault))
      && (WellFormed(m) ==> WellFormed(r))
  {
    var r := Unset(m, agentType);
    if WellFormed(m) {
      assert Keyed(r) by {
        forall k | k in r ensures KeyOf(r[k]) == k {
          assert KeyOf(m[k]) == k;
        }
      }
      assert BoolFlags(r);
      assert OneDefault(r) by {
        forall k1, k2 | k1 in r && k2 in r && k1.0 == k2.0 && IsDefault(r[k1]) && IsDefault(r[k2]) ensures k1 == k2 {
          assert IsDefault(m[k1]) && IsDefault(m[k2]);
        }
      }
    }
  }

  // ---------------------------------------------------------------------
  // `initialize_default_templates`

  function DefaultId(agentType: string): string
  {
    "default-" + Strs.Lower(agentType)
  }

  /** The seeded default of an agent type; the prompt texts are given. */
  function DefaultTemplate(agentType: string, now: int, prompts: map<string, string>): Template
  {
    Template(agentType, DefaultId(agentType), JStr(agentType + " デフォルト"),
             JStr(agentType + " のデフォルトテンプレート"), JStr(Lookup(prompts, agentType, "")),
             JBool(true), 1, now, now)
  }

  /** The table after seeding the given types, in order: a type whose
      default id is present is skipped. */
  function Seeded(m: Templates, types: seq<string>, now: int, prompts: map<string, string>): Templates
  {
    if types == [] then m
    else
      var before := Seeded(m, types[..|types| - 1], now, prompts);
      var t := types[|types| - 1];
      if (t, DefaultId(t)) in before then before else before[(t, DefaultId(t)) := DefaultTemplate(t, now, prompts)]
  }

  /** Seeding keeps every item. */
  lemma {:induction false} SeededKeeps(m: Templates, types: seq<string>, now: int, prompts: map<string, string>)
    ensures var r := Seeded(m, types, now, prompts);
      forall k :: k in m ==> k in r && r[k] == m[k]
  {
    if types != [] {
      SeededKeeps(m, types[..|types| - 1], now, prompts);
    }
  }

  /** After seeding, every type has its default id. */
  lemma {:induction false} SeededHas(m: Templates, types: seq<string>, now: int, prompts: map<string, string>)
    ensures forall t :: t in types ==> (t, DefaultId(t)) in Seeded(m, types, now, prompts)
  {
    if types != [] {
      var init := types[..|types| - 1];
      SeededHas(m, init, now, prompts);
      assert forall t :: t in types ==> t in init || t == types[|types| - 1];
    }
  }

  /** Seeding adds nothing but defaults of the seeded types. */
  lemma {:induction false} SeededNew(m: Templates, types: seq<string>, now: int, prompts: map<string, string>)
    ensures var r := Seeded(m, types, now, prompts);
      forall k :: k in r && k !in m ==> k.0 in types && k.1 == DefaultId(k.0) && r[k] == DefaultTemplate(k.0, now, prompts)
  {
    if types != [] {
      var init := types[..|types| - 1];
      SeededNew(m, init, now, prompts);
      assert forall t :: t in init ==> t in types;
    }
  }

  /** Seeding keeps every item and adds the missing defaults, nothing else. */
  lemma SeededItems(m: Templates, types: seq<string>, now: int, prompts: map<string, string>)
    ensures var r := Seeded(m, types, now, prompts);
      && (forall k :: k in m ==> k in r && r[k] == m[k])
      && (forall t :: t in types ==> (t, DefaultId(t)) in r)
      && (forall k :: k in r && k !in m ==> k.0 in types && k.1 == DefaultId(k.0) && r[k] == DefaultTemplate(k.0, now, prompts))
  {
    SeededKeeps(m, types, now, prompts);
    SeededHas(m, types, now, prompts);
    SeededNew(m, types, now, prompts);
  }

  /** Seeding a table that already holds every default changes nothing. */
  lemma {:induction false} SeededNoop(m: Templates, types: seq<string>, now: int, prompts: map<string, string>)
    requires forall t :: t in types ==> (t, DefaultId(t)) in m
    ensures Seeded(m, types, now, prompts) == m
  {
    if types != [] {
      var init := types[..|types| - 1];
      assert forall t :: t in init ==> t in types;
      SeededNoop(m, init, now, prompts);
      assert types[|types| - 1] in types;
    }
  }

  /** `initialize_default_templates` is idempotent, whatever the clock
      and the prompt texts of the second run. */
  lemma SeededIdempotent(m: Templates, now: int, later: int, prompts: map<string, string>, prompts2: map<string, string>)
    ensures Seeded(Seeded(m, AgentTypes, now, prompts), AgentTypes, later, prompts2) == Seeded(m, AgentTypes, now, prompts)
  {
    SeededItems(m, AgentTypes, now, prompts);
    SeededNoop(Seeded(m, AgentTypes, now, prompts), AgentTypes, later, prompts2);
  }

  /** Seeding an empty table gives exactly one default per agent type,
      version 1, and a table that keeps the invariant. */
  lemma SeededEmpty(now: int, prompts: map<string, string>)
    ensures var r := Seeded(map[], AgentTypes, now, prompts);
      && r.Keys == (set t | t in AgentTypes :: (t, DefaultId(t)))
      && (forall t :: t in AgentTypes ==> r[(t, DefaultId(t))] == DefaultTemplate(t, now, prompts))
      && WellFormed(r)
  {
    var r := Seeded(map[], AgentTypes, now, prompts);
    SeededItems(map[], AgentTypes, now, prompts);
    assert r.Keys == (set t | t in AgentTypes :: (t, DefaultId(t)));
    assert Keyed(r) by {
      forall k | k in r ensures KeyOf(r[k]) == k {
        assert r[k] == DefaultTemplate(k.0, now, prompts);
      }
    }
  }

  /** `_auto_initialize_defaults`: seeds only an empty table, once. */
  function AutoInit(m: Templates, initialized: bool, now: int, prompts: map<string, string>): Templates
  {
    if initialized || |m| != 0 then m else Seeded(m, AgentTypes, now, prompts)
  }

  lemma AutoInitValid(m: Templates, initialized: bool, now: int, prompts: map<string, string>)
    requires WellFormed(m)
    ensures WellFormed(AutoInit(m, initialized, now, prompts))
  {
    if !initialized && |m| == 0 {
      assert m == map[];
      SeededEmpty(now, prompts);
    }
  }

  // ---------------------------------------------------------------------
  // `handle_create`

  /** The id `tmpl-{stamp}-{uuid[:8]}` of a new template. */
  function NewTemplateId(stamp: string, uuid: string): string
  {
    "tmpl-" + stamp + "-" + (if |uuid| <= 8 then uuid else uuid[..8])
  }

  /** A new template's id is never a seeded default's. */
  lemma NewIdNotDefault(stamp: string, uuid: string, agentType: string)
    ensures NewTemplateId(stamp, uuid) != DefaultId(agentType)
  {
    assert NewTemplateId(stamp, uuid)[0] == 't';
    assert DefaultId(agentType)[0] == 'd';
  }

  /** The fields a create stores are the posted ones: the type upper-cased,
      the prompt and the description trimmed, and an absent description
      empty. */
  predicate Posted(f: map<string, Json>, t: Template)
  {
    && "agentType" in f && f["agentType"].JStr? && t.agentType == Strs.Upper(f["agentType"].s)
    && "editablePrompt" in f && f["editablePrompt"].JStr? && t.editablePrompt == JStr(Strs.Strip(f["editablePrompt"].s))
    && ("description" !in f ==> t.description == JStr(""))
    && ("description" in f ==> f["description"].JStr? && t.description == JStr(Strs.Strip(f["description"].s)))
  }

  /** A create's fields either end the request or give the new template. */
  datatype Verdict = Refuse(resp: Response) | Accept(item: Template)

  /** `handle_create`'s reading and validation of the body's fields. */
  function NewTemplate(f: map<string, Json>, now: int, newId: string): (r: Verdict)
    ensures r.Refuse? ==> r.resp.statusCode in {400, 500}
    ensures r.Accept? ==>
      var t := r.item;
      && t.agentType in AgentTypes && t.templateId == newId
      && t.version == 1 && t.createdAt == t.updatedAt == now
      && t.name.JStr? && t.name.s != "" && "name" in f && f["name"].JStr? && t.name.s == Strs.Strip(f["name"].s)
      && t.editablePrompt.JStr? && t.editablePrompt.s != ""
      && t.isDefault == Lookup(f, "isDefault", JBool(false))
      && Posted(f, t)
  {
    var agent := TextField(f, "agentType", "upper");
    var name := TextField(f, "name", "strip");
    var description := TextField(f, "description", "strip");
    var prompt := TextField(f, "editablePrompt", "strip");
    if agent.Err? then Refuse(Crash(agent.error))
    else if name.Err? then Refuse(Crash(name.error))
    else if description.Err? then Refuse(Crash(description.error))
    else if prompt.Err? then Refuse(Crash(prompt.error))
    else
      var agentType := Strs.Upper(agent.value);
      if agentType !in AgentTypes then Refuse(Response(400, ErrorBody(InvalidAgentType)))
      else if Strs.Strip(name.value) == "" then Refuse(Response(400, ErrorBody(NameRequired)))
      else if Strs.Strip(prompt.value) == "" then Refuse(Response(400, ErrorBody(PromptRequired)))
      else
        Accept(Template(agentType, newId, JStr(Strs.Strip(name.value)), JStr(Strs.Strip(description.value)),
                        JStr(Strs.Strip(prompt.value)), Lookup(f, "isDefault", JBool(false)), 1, now, now))
  }

  /** The table after storing a new template: the other defaults of its
      type are unset first when it is flagged. */
  function Store(m: Templates, t: Template): Templates
  {
    (if Truthy(t.isDefault) then Unset(m, t.agentType) else m)[KeyOf(t) := t]
  }

  function CreateStep(m: Templates, b: RequestBody, now: int, newId: string): Outcome
  {
    match ParseBody(b)
    case Reject(r) => Outcome(r, m)
    case Fields(f) =>
      match NewTemplate(f, now, newId)
      case Refuse(r) => Outcome(r, m)
      case Accept(t) => Outcome(Response(201, TemplateBody(t)), Store(m, t))
  }

  /** Storing adds the template under its key, leaves it the only default
      of its type when it is one, and changes no other template except to
      unset a default of its type. */
  lemma StoreResult(m: Templates, t: Template)
    ensures var r := Store(m, t);
      && r.Keys == m.Keys + {KeyOf(t)} && r[KeyOf(t)] == t
      && (IsDefault(t) ==> forall k :: k in r && k.0 == t.agentType && IsDefault(r[k]) ==> k == KeyOf(t))
      && (forall k :: k in m && k != KeyOf(t) && !(k.0 == t.agentType && Truthy(t.isDefault)) ==> r[k] == m[k])
  {
    UnsetClears(m, t.agentType);
  }

  /** A create either is refused and changes nothing, or stores a version 1
      template of a known type, with trimmed non-empty name and prompt,
      created and updated now, under the new id; when it is a default, no
      other template of its type still is. */
  lemma CreateResult(m: Templates, b: RequestBody, now: int, newId: string)
    ensures var o := CreateStep(m, b, now, newId);
      && (o.resp.statusCode != 201 ==> o.after == m)
      && (o.resp.statusCode == 201 ==>
            o.resp.body.TemplateBody? &&
            var t := o.resp.body.template;
            && t.agentType in AgentTypes && t.templateId == newId && KeyOf(t) in o.after && o.after[KeyOf(t)] == t
            && t.version == 1 && t.createdAt == t.updatedAt == now
            && t.name.JStr? && t.name.s != "" && t.name.s == Strs.Strip(t.name.s)
            && t.editablePrompt.JStr? && t.editablePrompt.s != ""
            && ParseBody(b).Fields? && Posted(ParseBody(b).fields, t)
            && "name" in ParseBody(b).fields && ParseBody(b).fields["name"].JStr?
            && t.name.s == Strs.Strip(ParseBody(b).fields["name"].s)
            && t.isDefault == Lookup(ParseBody(b).fields, "isDefault", JBool(false))
            && o.after.Keys == m.Keys + {KeyOf(t)}
            && (IsDefault(t) ==> forall k :: k in o.after && k.0 == t.agentType && IsDefault(o.after[k]) ==> k == KeyOf(t))
            && (forall k :: k in m && k != KeyOf(t) && !(k.0 == t.agentType && Truthy(t.isDefault)) ==> o.after[k] == m[k]))
  {
    match ParseBody(b)
    case Reject(_) =>
    case Fields(f) =>
      match NewTemplate(f, now, newId)
      case Refuse(_) =>
      case Accept(t) =>
        StoreResult(m, t);
        Strs.StripTrimmed(Strs.Strip(f["name"].s));
  }

  /** Storing a template under its own key keeps the invariant when its
      flag is a boolean and, if it is a default, no other template of its
      type is. */
  lemma PutKeepsValid(cleared: Templates, t: Template)
    requires WellFormed(cleared) && t.isDefault.JBool?
    requires IsDefault(t) ==> forall k :: k in cleared && k.0 == t.agentType && k != KeyOf(t) ==> !IsDefault(cleared[k])
    ensures WellFormed(cleared[KeyOf(t) := t])
  {
    var r := cleared[KeyOf(t) := t];
    assert OneDefault(r) by {
      forall k1, k2 | k1 in r && k2 in r && k1.0 == k2.0 && IsDefault(r[k1]) && IsDefault(r[k2])
        ensures k1 == k2
      {
        if k1 != KeyOf(t) && k2 != KeyOf(t) {
          assert IsDefault(cleared[k1]) && IsDefault(cleared[k2]);
        }
      }
    }
  }

  /** A create with a boolean (or no) default flag keeps the invariant. */
  lemma CreateKeepsValid(m: Templates, b: RequestBody, now: int, newId: string)
    requires WellFormed(m) && BoolFlag(b)
    ensures WellFormed(CreateStep(m, b, now, newId).after)
  {
    match ParseBody(b)
    case Reject(_) =>
    case Fields(f) =>
      match NewTemplate(f, now, newId)
      case Refuse(_) =>
      case Accept(t) =>
        UnsetClears(m, t.agentType);
        PutKeepsValid(if Truthy(t.isDefault) then Unset(m, t.agentType) else m, t);
  }

  // ---------------------------------------------------------------------
  // `handle_update`

  /** An update's key, or the response that ends the request. */
  datatype Target = Stop(resp: Response) | Aim(key: TemplateKey)

  /** `handle_update`'s reading of the key: type uppercased, id trimmed. */
  function UpdateKey(f: map<string, Json>): (r: Target)
    ensures r.Stop? ==> r.resp.statusCode in {400, 500}
    ensures r.Aim? ==> r.key.0 != "" && r.key.1 != ""
  {
    var agent := TextField(f, "agentType", "upper");
    var id := TextField(f, "templateId", "strip");
    if agent.Err? then Stop(Crash(agent.error))
    else if id.Err? then Stop(Crash(id.error))
    else
      var key := (Strs.Upper(agent.value), Strs.Strip(id.value));
      if key.0 == "" || key.1 == "" then Stop(Response(400, ErrorBody(KeyRequired))) else Aim(key)
  }

  /** The template an update answers with: the body's fields over the
      existing ones, the version bumped, the creation time kept. */
  function Revised(key: TemplateKey, e: Template, f: map<string, Json>, now: int): (t: Template)
    ensures KeyOf(t) == key && t.version == e.version + 1 && t.createdAt == e.createdAt && t.updatedAt == now
    ensures "name" !in f ==> t.name == e.name
    ensures "description" !in f ==> t.description == e.description
    ensures "editablePrompt" !in f ==> t.editablePrompt == e.editablePrompt
    ensures "isDefault" !in f ==> t.isDefault == e.isDefault
    ensures "name" in f ==> t.name == f["name"]
    ensures "description" in f ==> t.description == f["description"]
    ensures "editablePrompt" in f ==> t.editablePrompt == f["editablePrompt"]
    ensures "isDefault" in f ==> t.isDefault == f["isDefault"]
  {
    Template(key.0, key.1, Lookup(f, "name", e.name), Lookup(f, "description", e.description),
             Lookup(f, "editablePrompt", e.editablePrompt), Lookup(f, "isDefault", e.isDefault),
             e.version + 1, e.createdAt, now)
  }

  /** The table after the update: the type's defaults are unset first when
      the template becomes one, then its fields are set. */
  function Revise(m: Templates, key: TemplateKey, f: map<string, Json>, now: int): Templates
    requires key in m
  {
    var e := m[key];
    var t := Revised(key, e, f, now);
    var cleared := if Truthy(t.isDefault) && !Truthy(e.isDefault) then Unset(m, key.0) else m;
    cleared[key := cleared[key].(name := t.name, description := t.description, editablePrompt := t.editablePrompt,
                                 isDefault := t.isDefault, version := t.version, updatedAt := now)]
  }

  function UpdateStep(m: Templates, b: RequestBody, now: int): Outcome
  {
    match ParseBody(b)
    case Reject(r) => Outcome(r, m)
    case Fields(f) =>
      match UpdateKey(f)
      case Stop(r) => Outcome(r, m)
      case Aim(key) =>
        if key !in m then Outcome(Response(404, ErrorBody(NotFound)), m)
        else Outcome(Response(200, TemplateBody(Revised(key, m[key], f, now))), Revise(m, key, f, now))
  }

  /** What an update stores is what it answers with, and only the defaults
      of the type change besides. */
  lemma ReviseStores(m: Templates, key: TemplateKey, f: map<string, Json>, now: int)
    requires Keyed(m) && key in m
    ensures var t := Revised(key, m[key], f, now);
      var cleared := if Truthy(t.isDefault) && !Truthy(m[key].isDefault) then Unset(m, key.0) else m;
      Revise(m, key, f, now) == cleared[key := t] && key in cleared && cleared[key] == m[key]
  {
    var e := m[key];
    UnsetClears(m, key.0);
    assert KeyOf(e) == key;
  }

  /** An update of a missing template is a 404; otherwise a 200 bumps the
      version, keeps the creation time and any field the body omits, and
      stores what it answers; the set of keys never changes. */
  lemma UpdateResult(m: Templates, b: RequestBody, now: int)
    requires Keyed(m)
    ensures var o := UpdateStep(m, b, now);
      && o.after.Keys == m.Keys
      && (o.resp.statusCode != 200 ==> o.after == m)
      && (o.resp.statusCode == 200 ==>
            o.resp.body.TemplateBody? &&
            var t := o.resp.body.template;
            var f := ParseBody(b).fields;
            && KeyOf(t) in m && o.after[KeyOf(t)] == t
            && t.version == m[KeyOf(t)].version + 1 && t.createdAt == m[KeyOf(t)].createdAt && t.updatedAt == now
            && t.name == Lookup(f, "name", m[KeyOf(t)].name)
            && t.description == Lookup(f, "description", m[KeyOf(t)].description)
            && t.editablePrompt == Lookup(f, "editablePrompt", m[KeyOf(t)].editablePrompt)
            && t.isDefault == Lookup(f, "isDefault", m[KeyOf(t)].isDefault))
  {
    match ParseBody(b)
    case Reject(_) =>
    case Fields(f) =>
      match UpdateKey(f)
      case Stop(_) =>
      case Aim(key) =>
        if key in m {
          ReviseStores(m, key, f, now);
          UnsetClears(m, key.0);
        }
  }

  /** With a well-formed key, an update answers 404 exactly when the
      template is missing. */
  lemma UpdateNotFound(m: Templates, b: RequestBody, now: int)
    requires ParseBody(b).Fields? && UpdateKey(ParseBody(b).fields).Aim?
    ensures UpdateStep(m, b, now).resp.statusCode == 404 <==> UpdateKey(ParseBody(b).fields).key !in m
  {
  }

  /** An update with a boolean (or no) default flag keeps the invariant. */
  lemma UpdateKeepsValid(m: Templates, b: RequestBody, now: int)
    requires WellFormed(m) && BoolFlag(b)
    ensures WellFormed(UpdateStep(m, b, now).after)
  {
    match ParseBody(b)
    case Reject(_) =>
    case Fields(f) =>
      match UpdateKey(f)
      case Stop(_) =>
      case Aim(key) =>
        if key in m {
          var e := m[key];
          var t := Revised(key, e, f, now);
          var cleared := if Truthy(t.isDefault) && !Truthy(e.isDefault) then Unset(m, key.0) else m;
          ReviseStores(m, key, f, now);
          UnsetClears(m, key.0);
          if IsDefault(t) && Truthy(e.isDefault) {
            assert IsDefault(e);
          }
          PutKeepsValid(cleared, t);
        }
  }

  // ---------------------------------------------------------------------
  // `handle_delete`

  function DeleteStep(m: Templates, query: map<string, string>): Outcome
  {
    var key := (Strs.Upper(Lookup(query, "agentType", "")), Lookup(query, "templateId", ""));
    if key.0 == "" || key.1 == "" then Outcome(Response(400, ErrorBody(KeyRequired)), m)
    else if key !in m then Outcome(Response(404, ErrorBody(NotFound)), m)
    else Outcome(Response(200, MessageBody(Deleted)), m - {key})
  }

  /** A delete removes exactly the named template when it exists (200),
      answers 404 when it does not, and keeps the invariant. */
  lemma DeleteResult(m: Templates, query: map<string, string>)
    ensures var o := DeleteStep(m, query);
      var key := (Strs.Upper(Lookup(query, "agentType", "")), Lookup(query, "templateId", ""));
      && (o.resp.statusCode == 200 <==> key.0 != "" && key.1 != "" && key in m)
      && (o.resp.statusCode == 404 <==> key.0 != "" && key.1 != "" && key !in m)
      && (o.resp.statusCode == 200 ==> o.after.Keys == m.Keys - {key} && forall k :: k in o.after ==> o.after[k] == m[k])
      && (o.resp.statusCode != 200 ==> o.after == m)
      && (WellFormed(m) ==> WellFormed(o.after))
  {
  }

  // ---------------------------------------------------------------------
  // `handle_get`

  function UpdatedKey(t: Template): Order.Key
  {
    Order.Num(t.updatedAt)
  }

  function TypeKeys(m: Templates, agentType: string): (r: set<TemplateKey>)
    ensures forall k :: k in r <==> k in m && k.0 == agentType
  {
    set k | k in m && k.0 == agentType
  }

  /** `get_all_templates`' list: each template of the type exactly once,
      newest update first. */
  predicate Listed(m: Templates, agentType: string, r: seq<Template>)
  {
    && (forall k :: k in TypeKeys(m, agentType) ==> m[k] in r)
    && (forall i :: 0 <= i < |r| ==> KeyOf(r[i]) in TypeKeys(m, agentType) && m[KeyOf(r[i])] == r[i])
    && |r| == |TypeKeys(m, agentType)|
    && Order.SortedBy(r, UpdatedKey, true)
  }

  /** Sorting the collected templates of a type by update time gives the
      listing. */
  lemma SortedListed(m: Templates, agentType: string, found: seq<Template>)
    requires |found| == |TypeKeys(m, agentType)|
    requires forall k :: k in TypeKeys(m, agentType) ==> m[k] in found
    requires forall i :: 0 <= i < |found| ==> KeyOf(found[i]) in TypeKeys(m, agentType) && m[KeyOf(found[i])] == found[i]
    ensures Listed(m, agentType, Order.SortBy(found, UpdatedKey, true))
  {
    var r := Order.SortBy(found, UpdatedKey, true);
    Order.SortBySorted(found, UpdatedKey, true);
    forall k | k in TypeKeys(m, agentType) ensures m[k] in r {
      assert m[k] in multiset(found);
    }
    forall i | 0 <= i < |r| ensures KeyOf(r[i]) in TypeKeys(m, agentType) && m[KeyOf(r[i])] == r[i] {
      Order.SortByMembers(found, UpdatedKey, true, i);
      var j :| 0 <= j < |found| && found[j] == r[i];
    }
  }

  /** What `handle_get` answers. */
  predicate GetAnswered(m: Templates, query: map<string, string>, resp: Response)
  {
    var agentType := Strs.Upper(Lookup(query, "agentType", ""));
    var id := Lookup(query, "templateId", "");
    if agentType == "" then resp == Response(400, ErrorBody(AgentTypeRequired))
    else if agentType !in AgentTypes then resp == Response(400, ErrorBody(InvalidAgentType))
    else if id != "" then
      resp == if (agentType, id) in m then Response(200, TemplateBody(m[(agentType, id)]))
              else Response(404, ErrorBody(NotFound))
    else
      && resp.statusCode == 200 && resp.body.Listing? && resp.body.agentType == agentType
      && resp.body.count == |resp.body.templates| && Listed(m, agentType, resp.body.templates)
  }

  /** What the handler answers on a table `m`, and the table it leaves. */
  predicate Answered(m: Templates, req: Request, now: int, newId: string, resp: Response, after: Templates)
  {
    if req.httpMethod == "OPTIONS" then resp == Response(200, MessageBody("OK")) && after == m
    else if req.httpMethod == "GET" then GetAnswered(m, req.query, resp) && after == m
    else if req.httpMethod == "POST" then Outcome(resp, after) == CreateStep(m, req.body, now, newId)
    else if req.httpMethod == "PUT" then Outcome(resp, after) == UpdateStep(m, req.body, now)
    else if req.httpMethod == "DELETE" then Outcome(resp, after) == DeleteStep(m, req.query)
    else resp == Response(405, ErrorBody("Method not allowed: " + req.httpMethod)) && after == m
  }

  /** Every request whose default flag is boolean keeps the invariant. */
  lemma AnsweredKeepsValid(m: Templates, req: Request, now: int, newId: string, resp: Response, after: Templates)
    requires WellFormed(m) && BoolFlag(req.body) && Answered(m, req, now, newId, resp, after)
    ensures WellFormed(after)
  {
    if req.httpMethod == "POST" {
      CreateKeepsValid(m, req.body, now, newId);
    } else if req.httpMethod == "PUT" {
      UpdateKeepsValid(m, req.body, now);
    } else if req.httpMethod == "DELETE" {
      DeleteResult(m, req.query);
    }
  }

  // ---------------------------------------------------------------------
  // The table

  class TemplateTable {
    var items: Templates
    /** `_defaults_initialized`, per instance of the function. */
    var defaultsInitialized: bool
    /** Whether the table name is configured. */
    const configured: bool
    /** `DEFAULT_EDITABLE_PROMPTS`. */
    const defaultPrompts: map<string, string>

    constructor (configured: bool, defaultPrompts: map<string, string>, items: Templates)
      ensures this.configured == configured && this.defaultPrompts == defaultPrompts
      ensures this.items == items && !defaultsInitialized
    {
      this.configured := configured;
      this.defaultPrompts := defaultPrompts;
      this.items := items;
      defaultsInitialized := false;
    }

    ghost predicate Valid()
      reads this
    {
      WellFormed(items)
    }

    /** `_unset_current_default`: one update per queried default. */
    method UnsetCurrentDefault(agentType: string)
      modifies this
      ensures items == Unset(old(items), agentType)
      ensures defaultsInitialized == old(defaultsInitialized)
    {
      ghost var all := DefaultKeys(items, agentType);
      var pending := DefaultKeys(items, agentType);
      while pending != {}
        invariant pending <= all && all <= old(items).Keys
        invariant all == DefaultKeys(old(items), agentType)
        invariant items == Cleared(old(items), all - pending)
        invariant defaultsInitialized == old(defaultsInitialized)
        decreases pending
      {
        var k :| k in pending;
        items := items[k := items[k].(isDefault := JBool(false))];
        pending := pending - {k};
        assert items == Cleared(old(items), all - pending);
      }
    }

    /** `initialize_default_templates`: seeds each missing default. */
    method InitializeDefaultTemplates(now: int)
      modifies this
      ensures items == Seeded(old(items), AgentTypes, now, defaultPrompts)
      ensures defaultsInitialized == old(defaultsInitialized)
    {
      for i := 0 to |AgentTypes|
        invariant items == Seeded(old(items), AgentTypes[..i], now, defaultPrompts)
        invariant defaultsInitialized == old(defaultsInitialized)
      {
        assert AgentTypes[..i + 1][..i] == AgentTypes[..i];
        var agentType := AgentTypes[i];
        var id := DefaultId(agentType);
        if (agentType, id) !in items {
          items := items[(agentType, id) := DefaultTemplate(agentType, now, defaultPrompts)];
        }
      }
      assert AgentTypes[..|AgentTypes|] == AgentTypes;
    }

    /** `_auto_initialize_defaults`. */
    method AutoInitializeDefaults(now: int)
      modifies this
      ensures items == AutoInit(old(items), old(defaultsInitialized), now, defaultPrompts)
      ensures defaultsInitialized
    {
      if defaultsInitialized {
        return;
      }
      if |items| == 0 {
        InitializeDefaultTemplates(now);
      }
      defaultsInitialized := true;
    }

    /** `get_all_templates`' query and sort. */
    method ListTemplates(agentType: string) returns (r: seq<Template>)
      requires Keyed(items)
      ensures Listed(items, agentType, r)
    {
      var pending := TypeKeys(items, agentType);
      var found: seq<Template> := [];
      while pending != {}
        invariant pending <= TypeKeys(items, agentType)
        invariant |found| + |pending| == |TypeKeys(items, agentType)|
        invariant forall k :: k in TypeKeys(items, agentType) && k !in pending ==> items[k] in found
        invariant forall i :: 0 <= i < |found| ==> KeyOf(found[i]) in TypeKeys(items, agentType) - pending &&
                                                   items[KeyOf(found[i])] == found[i]
        decreases pending
      {
        var k :| k in pending;
        assert KeyOf(items[k]) == k;
        found := found + [items[k]];
        pending := pending - {k};
      }
      SortedListed(items, agentType, found);
      r := Order.SortBy(found, UpdatedKey, true);
    }

    /** `handle_get`. */
    method HandleGet(query: map<string, string>) returns (resp: Response)
      requires Keyed(items)
      ensures GetAnswered(items, query, resp)
    {
      var agentType := Strs.Upper(Lookup(query, "agentType", ""));
      if agentType == "" {
        return Response(400, ErrorBody(AgentTypeRequired));
      }
      if agentType !in AgentTypes {
        return Response(400, ErrorBody(InvalidAgentType));
      }
      var id := Lookup(query, "templateId", "");
      if id != "" {
        if (agentType, id) !in items {
          return Response(404, ErrorBody(NotFound));
        }
        return Response(200, TemplateBody(items[(agentType, id)]));
      }
      var templates := ListTemplates(agentType);
      resp := Response(200, Listing(agentType, templates, |templates|));
    }

    /** `handle_create`. */
    method HandleCreate(b: RequestBody, now: int, newId: string) returns (resp: Response)
      modifies this
      ensures Outcome(resp, items) == CreateStep(old(items), b, now, newId)
      ensures defaultsInitialized == old(defaultsInitialized)
    {
      var parsed := ParseBody(b);
      if parsed.Reject? {
        return parsed.resp;
      }
      var verdict := NewTemplate(parsed.fields, now, newId);
      if verdict.Refuse? {
        return verdict.resp;
      }
      var item := verdict.item;
      if Truthy(item.isDefault) {
        UnsetCurrentDefault(item.agentType);
      }
      items := items[KeyOf(item) := item];
      resp := Response(201, TemplateBody(item));
    }

    /** `handle_update`. */
    method HandleUpdate(b: RequestBody, now: int) returns (resp: Response)
      modifies this
      ensures Outcome(resp, items) == UpdateStep(old(items), b, now)
      ensures defaultsInitialized == old(defaultsInitialized)
    {
      var parsed := ParseBody(b);
      if parsed.Reject? {
        return parsed.resp;
      }
      var f := parsed.fields;
      var target := UpdateKey(f);
      if target.Stop? {
        return target.resp;
      }
      var key := target.key;
      if key !in items {
        return Response(404, ErrorBody(NotFound));
      }
      var existing := items[key];
      var t := Revised(key, existing, f, now);
      if Truthy(t.isDefault) && !Truthy(existing.isDefault) {
        UnsetCurrentDefault(key.0);
      }
      items := items[key := items[key].(name := t.name, description := t.description, editablePrompt := t.editablePrompt,
                                        isDefault := t.isDefault, version := t.version, updatedAt := now)];
      resp := Response(200, TemplateBody(t));
    }

    /** `handle_delete`. */
    method HandleDelete(query: map<string, string>) returns (resp: Response)
      modifies this
      ensures Outcome(resp, items) == DeleteStep(old(items), query)
      ensures defaultsInitialized == old(defaultsInitialized)
    {
      var key := (Strs.Upper(Lookup(query, "agentType", "")), Lookup(query, "templateId", ""));
      if key.0 == "" || key.1 == "" {
        return Response(400, ErrorBody(KeyRequired));
      }
      if key !in items {
        return Response(404, ErrorBody(NotFound));
      }
      items := items - {key};
      resp := Response(200, MessageBody(Deleted));
    }

    /** `lambda_handler`: seeds an empty table on the first request, then
        dispatches on the HTTP method. */
    method Handle(req: Request, now: int, newId: string) returns (resp: Response)
      requires Keyed(items)
      modifies this
      ensures !configured ==> resp == Response(500, ErrorBody(NotConfigured)) && items == old(items) &&
                              defaultsInitialized == old(defaultsInitialized)
      ensures configured ==> (defaultsInitialized &&
        Answered(AutoInit(old(items), old(defaultsInitialized), now, defaultPrompts), req, now, newId, resp, items))
      ensures old(Valid()) && BoolFlag(req.body) ==> Valid()
    {
      if !configured {
        return Response(500, ErrorBody(NotConfigured));
      }
      ghost var m0 := items;
      AutoInitializeDefaults(now);
      ghost var m := items;
      if WellFormed(m0) {
        AutoInitValid(m0, old(defaultsInitialized), now, defaultPrompts);
      }
      assert Keyed(items) by {
        if !(old(defaultsInitialized) || |m0| != 0) {
          assert m0 == map[];
          SeededEmpty(now, defaultPrompts);
        }
      }
      if req.httpMethod == "OPTIONS" {
        resp := Response(200, MessageBody("OK"));
      } else if req.httpMethod == "GET" {
        resp := HandleGet(req.query);
      } else if req.httpMethod == "POST" {
        resp := HandleCreate(req.body, now, newId);
      } else if req.httpMethod == "PUT" {
        resp := HandleUpdate(req.body, now);
      } else if req.httpMethod == "DELETE" {
        resp := HandleDelete(req.query);
      } else {
        resp := Response(405, ErrorBody("Method not allowed: " + req.httpMethod));
      }
      if WellFormed(m0) && BoolFlag(req.body) {
        AnsweredKeepsValid(m, req, now, newId, resp, items);
      }
    }
  }
}
