/**
 * The live HubSpot client of hubspot_client.py: settings read from the
 * environment, the persona key/value maps, the capability gate, and the request
 * and response shaping of the contact, list and single-send operations.
 *
 * HTTP is a logged exchange: every request the client issues is appended to
 * `sent`, and the reply to the n-th request is an arbitrary function of n and the
 * request. Headers and the OAuth token exchange are not part of the model.
 */
module HubSpot {
  import opened Wrappers
  import opened Text
  import opened PyJson

  /** The process environment. */
  type Env = map<string, string>

  /** `os.getenv(k, default)`. */
  function GetEnv(env: Env, k: string, default: string): string
  {
    if k in env then env[k] else default
  }

  /** BASE: the API root with every trailing "/" removed. */
  function Base(env: Env): (r: string)
    ensures r <= GetEnv(env, "HUBSPOT_API_BASE", "https://api.hubapi.com")
    ensures r == [] || r[|r| - 1] != '/'
    ensures forall i :: |r| <= i < |GetEnv(env, "HUBSPOT_API_BASE", "https://api.hubapi.com")| ==>
      GetEnv(env, "HUBSPOT_API_BASE", "https://api.hubapi.com")[i] == '/'
  {
    TrimRightChar(GetEnv(env, "HUBSPOT_API_BASE", "https://api.hubapi.com"), '/')
  }

  /** AUTH_MODE: an unset or empty variable means "private"; the value is trimmed
      and lower-cased. */
  function AuthMode(env: Env): string
  {
    LowerAscii(Strip(if GetEnv(env, "HUBSPOT_AUTH_MODE", "") != [] then env["HUBSPOT_AUTH_MODE"] else "private"))
  }

  /** HUB_TOKEN: the private app token, trimmed. */
  function HubToken(env: Env): string
  {
    Strip(GetEnv(env, "HUBSPOT_PRIVATE_APP_TOKEN", ""))
  }

  /** SEND_ENABLED: the lower-cased (untrimmed) value is exactly "true". */
  predicate SendEnabled(env: Env)
  {
    LowerAscii(GetEnv(env, "HUBSPOT_SEND_ENABLED", "false")) == "true"
  }

  /** `hubspot_available()`. In OAuth mode the client id and refresh token only
      have to be non-empty; they are not trimmed here. */
  predicate HubspotAvailable(env: Env)
  {
    if AuthMode(env) == "oauth" then
      GetEnv(env, "HUBSPOT_CLIENT_ID", "") != [] && GetEnv(env, "HUBSPOT_REFRESH_TOKEN", "") != []
    else HubToken(env) != []
  }

  /** `can_send()`. */
  predicate CanSend(env: Env)
  {
    HubspotAvailable(env) && SendEnabled(env)
  }

  /** The capability gate: sending needs availability and the send flag; availability
      is decided by the OAuth credentials in OAuth mode and by the token otherwise. */
  lemma CapabilityGate(env: Env)
    ensures CanSend(env) ==> HubspotAvailable(env) && SendEnabled(env)
    ensures AuthMode(env) == "oauth" ==>
      (HubspotAvailable(env) <==> "HUBSPOT_CLIENT_ID" in env && env["HUBSPOT_CLIENT_ID"] != []
                                  && "HUBSPOT_REFRESH_TOKEN" in env && env["HUBSPOT_REFRESH_TOKEN"] != [])
    ensures AuthMode(env) != "oauth" ==>
      (HubspotAvailable(env) <==> "HUBSPOT_PRIVATE_APP_TOKEN" in env && Strip(env["HUBSPOT_PRIVATE_APP_TOKEN"]) != [])
  {
    assert Strip("") == [] by { assert TrimLeft("") == []; }
  }

  /** The default mode name is not "oauth". */
  lemma DefaultModeName()
    ensures LowerAscii(Strip("private")) != "oauth"
  {
    assert Strip("private") == "private" by {
      assert TrimLeft("private") == "private";
      assert TrimRight("private") == "private";
    }
    assert LowerAscii(Strip("private"))[0] == 'p';
  }

  /** With HUBSPOT_AUTH_MODE unset or empty the client is not in OAuth mode, so only
      the private app token decides availability. */
  lemma DefaultModeNeedsToken(env: Env)
    requires GetEnv(env, "HUBSPOT_AUTH_MODE", "") == []
    ensures AuthMode(env) != "oauth"
    ensures HubspotAvailable(env) <==> HubToken(env) != []
  {
    DefaultModeName();
  }

  // ----- Persona maps -----

  const PersonaProp: string := "audience_persona"

  /** `_PERSONA_KEY_TO_VALUE`: UI persona keys to the CRM's enumeration values. */
  const PersonaKeyToValue: map<string, string> :=
    map["founder" := "startup_founder", "creative" := "creative_professional", "ops" := "ops_manager"]

  /** `_PERSONA_VALUE_TO_KEY`, built by swapping each entry of the forward map. */
  function PersonaValueToKey(): map<string, string>
  {
    map k | k in PersonaKeyToValue :: PersonaKeyToValue[k] := k
  }

  /** The two maps are inverse bijections between the three keys and the three values. */
  lemma PersonaMapsInverse()
    ensures PersonaKeyToValue.Keys == {"founder", "creative", "ops"}
    ensures PersonaValueToKey().Keys == PersonaKeyToValue.Values
    ensures forall k :: k in PersonaKeyToValue ==> PersonaValueToKey()[PersonaKeyToValue[k]] == k
    ensures forall v :: v in PersonaValueToKey() ==> PersonaKeyToValue[PersonaValueToKey()[v]] == v
    ensures forall k1, k2 :: k1 in PersonaKeyToValue && k2 in PersonaKeyToValue && k1 != k2 ==>
      PersonaKeyToValue[k1] != PersonaKeyToValue[k2]
  {
    var m := PersonaValueToKey();
    assert m["startup_founder"] == "founder";
    assert m["creative_professional"] == "creative";
    assert m["ops_manager"] == "ops";
    assert m.Keys == {"startup_founder", "creative_professional", "ops_manager"};
  }

  /** `_PERSONA_KEY_TO_VALUE.get(key, key)`. */
  function PersonaValue(keyOrValue: string): string
  {
    if keyOrValue in PersonaKeyToValue then PersonaKeyToValue[keyOrValue] else keyOrValue
  }

  // ----- HTTP -----

  datatype Verb = GET | POST | PATCH

  /** One HTTP request: verb, full URL, query parameters and JSON body. */
  datatype HttpRequest = HttpRequest(verb: Verb, url: string, query: map<string, Json>, body: Json)

  /** What `requests` hands back: a reply with its status, its body decoded as JSON
      when it is JSON, and its raw text; or an exception raised by the transport. */
  datatype HttpOutcome =
    | Response(status: int, json: Option<Json>, text: string)
    | TransportFailure(message: string)

  /** Why an operation raised. */
  datatype ApiError =
    | HttpStatus(status: int, detail: Json)   // the RuntimeError `_req` raises
    | Transport(message: string)              // an exception from `requests`
    | Raised(error: PyError)                  // a shape error in the reply

  /** `resp.json()` if the body is JSON, otherwise `resp.text`. */
  function Detail(status: int, json: Option<Json>, text: string): Json
  {
    if json.Some? then json.value else JStr(text)
  }

  /** `_req`'s handling of the reply. */
  function Checked(o: HttpOutcome): Result<Json, ApiError>
  {
    match o
    case TransportFailure(m) => Failure(Transport(m))
    case Response(status, json, text) =>
      if status >= 300 then Failure(HttpStatus(status, Detail(status, json, text)))
      else if json.Some? then Success(json.value)
      else Success(JObj(map["status" := JStr("ok"), "text" := JStr(text)]))
  }

  /** `_req` raises exactly for a status of 300 or more, with the decoded body (or the
      text) as detail; below 300 it returns the decoded body, or an "ok" record with
      the text when the body is not JSON. */
  lemma CheckedStatus(status: int, json: Option<Json>, text: string)
    ensures Checked(Response(status, json, text)).Failure? <==> status >= 300
    ensures status >= 300 ==> Checked(Response(status, json, text)).error.detail
                               == (if json.Some? then json.value else JStr(text))
    ensures status < 300 ==> Checked(Response(status, json, text)).value
                             == (if json.Some? then json.value else JObj(map["status" := JStr("ok"), "text" := JStr(text)]))
  {
  }

  /** What iterating a decoded value and calling `.get` on each element gives: a list
      yields its elements; an empty string or dict yields nothing; a non-empty string
      or dict yields strings, on which `.get` raises AttributeError; anything else is
      not iterable. */
  function Iterate(v: Json): (r: Result<seq<Json>, PyError>)
    ensures r.Success? <==> v.JArr? || v == JStr([]) || v == JObj(map[])
  {
    match v
    case JArr(items) => Success(items)
    case JStr(s) => if s == [] then Success([]) else Failure(AttributeError)
    case JObj(m) => if m == map[] then Success([]) else Failure(AttributeError)
    case _ => Failure(TypeError)
  }

  // ----- Contacts -----

  /** `_PERSONA_KEY_TO_VALUE.get(v, "")`: an unhashable list or dict raises TypeError. */
  function PersonaLookup(v: Json): Result<Json, PyError>
  {
    if v.JArr? || v.JObj? then Failure(TypeError)
    else if v.JStr? && v.s in PersonaKeyToValue then Success(JStr(PersonaKeyToValue[v.s]))
    else Success(JStr(""))
  }

  /** The properties `upsert_contact` sends: "persona" is replaced by the mapped
      value under "audience_persona", then "hs_persona", if present, moves there. */
  function NormalisedProperties(properties: map<string, Json>): Result<map<string, Json>, PyError>
  {
    var mapped :=
      if "persona" in properties then
        match PersonaLookup(properties["persona"])
        case Failure(e) => Failure(e)
        case Success(v) => Success((properties - {"persona"})[PersonaProp := v])
      else Success(properties);
    match mapped
    case Failure(e) => Failure(e)
    case Success(p) =>
      if "hs_persona" in p then Success((p - {"hs_persona"})[PersonaProp := p["hs_persona"]]) else Success(p)
  }

  /** The rewrite of `upsert_contact`: both persona keys disappear; "hs_persona" wins
      over a mapped "persona"; an unknown persona key becomes ""; every other
      property is kept unchanged and nothing else is added. It fails only on an
      unhashable persona value. */
  lemma PersonaRewrite(properties: map<string, Json>)
    ensures NormalisedProperties(properties).Failure? <==>
      "persona" in properties && (properties["persona"].JArr? || properties["persona"].JObj?)
    ensures NormalisedProperties(properties).Success? ==>
      var p := NormalisedProperties(properties).value;
      && "persona" !in p && "hs_persona" !in p
      && (PersonaProp in p <==> PersonaProp in properties || "persona" in properties || "hs_persona" in properties)
      && ("hs_persona" in properties ==> p[PersonaProp] == properties["hs_persona"])
      && ("hs_persona" !in properties && "persona" in properties && properties["persona"].JStr? ==>
            p[PersonaProp] == JStr(if properties["persona"].s in PersonaKeyToValue
                                   then PersonaKeyToValue[properties["persona"].s] else ""))
      && (forall k :: k != "persona" && k != "hs_persona" && k != PersonaProp ==>
            (k in p <==> k in properties) && (k in p ==> p[k] == properties[k]))
  {
  }

  /** The payload's property record: `{"email": email, **props}`; a property named
      "email" overrides the argument. */
  function ContactRecord(email: string, props: map<string, Json>): map<string, Json>
  {
    map["email" := JStr(email)] + props
  }

  /** `{"status": "ok", **reply.json()}` or the error record of `upsert_contact`. */
  function ContactReply(o: HttpOutcome): Result<Json, ApiError>
  {
    match o
    case TransportFailure(m) => Failure(Transport(m))
    case Response(status, json, text) =>
      if status >= 300 then
        Success(JObj(map["status" := JStr("error"), "code" := JNum(status as real), "detail" := Detail(status, json, text)]))
      else if json.None? then Failure(Raised(ValueError))
      else if !json.value.JObj? then Failure(Raised(TypeError))
      else Success(JObj(map["status" := JStr("ok")] + json.value.fields))
  }

  /** A failed upsert is reported, not raised: an error status gives an "error"
      record with the status code, a success keeps every field of the reply. */
  lemma ContactReplyShape(o: HttpOutcome)
    ensures o.Response? && o.status >= 300 ==>
      ContactReply(o).Success? && ContactReply(o).value.fields["status"] == JStr("error")
      && ContactReply(o).value.fields["code"] == JNum(o.status as real)
    ensures o.Response? && o.status < 300 && ContactReply(o).Success? ==>
      o.json.Some? && o.json.value.JObj?
      && forall k :: k in o.json.value.fields ==> ContactReply(o).value.fields[k] == o.json.value.fields[k]
  {
  }

  // ----- Search and lists -----

  /** One search hit as `search_contacts_by_persona` reshapes it. */
  function ContactItem(r: Json): (item: Result<Json, PyError>)
    ensures item.Success? ==>
      item.value.JObj? && item.value.fields.Keys == {"id", "email", "firstname", "lastname", "persona"}
  {
    if !r.JObj? then Failure(AttributeError)
    else
      var raw := Get(r.fields, "properties", JObj(map[]));
      var p := if Truthy(raw) then raw else JObj(map[]);
      if !p.JObj? then Failure(AttributeError)
      else
        var pv := Get(p.fields, PersonaProp, JStr(""));
        if pv.JArr? || pv.JObj? then Failure(TypeError)
        else
          var persona := if pv.JStr? && pv.s in PersonaValueToKey() then PersonaValueToKey()[pv.s] else "";
          Success(JObj(map[
            "id" := Get(r.fields, "id", JNull),
            "email" := Get(p.fields, "email", JNull),
            "firstname" := Get(p.fields, "firstname", JNull),
            "lastname" := Get(p.fields, "lastname", JNull),
            "persona" := JStr(persona)]))
  }

  /** The items of a search reply, in order, or the first error. */
  function ContactItems(results: seq<Json>): (r: Result<seq<Json>, PyError>)
    ensures r.Success? ==> (
      && |r.value| == |results|
      && forall i :: 0 <= i < |results| ==> ContactItem(results[i]) == Success(r.value[i]))
    ensures r.Failure? <==> exists i :: 0 <= i < |results| && ContactItem(results[i]).Failure?
  {
    if results == [] then Success([])
    else
      var init := results[..|results| - 1];
      assert forall i :: 0 <= i < |init| ==> init[i] == results[i];
      match ContactItems(init)
      case Failure(e) => Failure(e)
      case Success(items) =>
        match ContactItem(results[|results| - 1])
        case Failure(e) => Failure(e)
        case Success(item) => Success(items + [item])
  }

  /** The persona of a hit is the UI key of its stored value, or "" when the stored
      value is not one of the three enumeration values. */
  lemma ItemPersona(r: Json)
    requires ContactItem(r).Success?
    ensures var p := if Truthy(Get(r.fields, "properties", JObj(map[]))) then r.fields["properties"].fields else map[];
      var pv := Get(p, PersonaProp, JStr(""));
      ContactItem(r).value.fields["persona"] ==
        JStr(if pv.JStr? && pv.s in PersonaKeyToValue.Values then PersonaValueToKey()[pv.s] else "")
  {
    PersonaMapsInverse();
  }

  /** The search reply record. */
  function SearchReply(status: string, items: seq<Json>): Json
  {
    JObj(map["status" := JStr(status), "count" := JNum(|items| as real), "results" := JArr(items)])
  }

  /** The search for one persona value. */
  function SearchBody(personaValue: string, limit: int): Json
  {
    JObj(map[
      "filterGroups" := JArr([JObj(map["filters" := JArr([JObj(map[
        "propertyName" := JStr(PersonaProp), "operator" := JStr("EQ"), "value" := JStr(personaValue)])])])]),
      "properties" := JArr([JStr("email"), JStr("firstname"), JStr("lastname"), JStr(PersonaProp)]),
      "limit" := JNum(limit as real)])
  }

  /** The live search's result for the reply `fetched`. */
  function SearchOutcome(fetched: Result<Json, ApiError>): (r: Result<Json, ApiError>)
    ensures r.Success? ==> (
      && r.value.JObj? && "count" in r.value.fields && "results" in r.value.fields
      && r.value.fields["results"].JArr?
      && r.value.fields["count"] == JNum(|r.value.fields["results"].items| as real))
  {
    match fetched
    case Failure(e) => Failure(e)
    case Success(res) =>
      if !res.JObj? then Failure(Raised(AttributeError))
      else
        match Iterate(Get(res.fields, "results", JArr([])))
        case Failure(e) => Failure(Raised(e))
        case Success(hits) =>
          match ContactItems(hits)
          case Failure(e) => Failure(Raised(e))
          case Success(items) => Success(SearchReply("ok", items))
  }

  /** The list name for a persona key. */
  function ListName(key: string): string
  {
    "[Auto] Persona: " + key
  }

  /** The first list called `name`; a list entry that is not a dict raises before
      any later entry is looked at. */
  function FirstNamed(lists: seq<Json>, name: string): (r: Result<Option<Json>, PyError>)
    ensures r.Success? && r.value.Some? ==>
      exists i :: (
        && 0 <= i < |lists| && lists[i] == r.value.value
        && lists[i].JObj? && Get(lists[i].fields, "name", JNull) == JStr(name)
        && forall j :: 0 <= j < i ==> lists[j].JObj? && Get(lists[j].fields, "name", JNull) != JStr(name))
    ensures r == Success(None) ==>
      forall j :: 0 <= j < |lists| ==> lists[j].JObj? && Get(lists[j].fields, "name", JNull) != JStr(name)
  {
    if lists == [] then Success(None)
    else if !lists[0].JObj? then Failure(AttributeError)
    else if Get(lists[0].fields, "name", JNull) == JStr(name) then Success(Some(lists[0]))
    else
      var rest := FirstNamed(lists[1..], name);
      assert forall j :: 1 <= j < |lists| ==> lists[j] == lists[1..][j - 1];
      rest
  }

  /** `lst.get("listId") or lst.get("id")`. */
  function ListId(fields: map<string, Json>): Json
  {
    Or(Get(fields, "listId", JNull), Get(fields, "id", JNull))
  }

  /** The simulated list record; after an exception it also carries a note. */
  function SimulatedList(key: string, note: Option<string>): Json
  {
    var base := map["status" := JStr("simulated"), "list_id" := JStr("sim-list-" + key), "name" := JStr(ListName(key))];
    JObj(if note.Some? then base["note" := JStr(note.value)] else base)
  }

  function ListRecord(listId: Json, key: string, created: bool): Json
  {
    JObj(map["status" := JStr("ok"), "list_id" := listId, "name" := JStr(ListName(key)), "created" := JBool(created)])
  }

  /** The scan of the lists reply: the first list with the name, none, or the error
      that the source catches. */
  function ScanLists(fetched: Result<Json, ApiError>, name: string): Result<Option<Json>, ApiError>
  {
    match fetched
    case Failure(e) => Failure(e)
    case Success(v) =>
      if !v.JObj? then Failure(Raised(AttributeError))
      else
        match Iterate(Or(Get(v.fields, "results", JNull), JArr([])))
        case Failure(e) => Failure(Raised(e))
        case Success(lists) =>
          match FirstNamed(lists, name)
          case Failure(e) => Failure(Raised(e))
          case Success(found) => Success(found)
  }

  /** The body that creates the dynamic list for a persona. */
  function CreateListBody(key: string): Json
  {
    JObj(map[
      "name" := JStr(ListName(key)),
      "dynamic" := JBool(true),
      "filterBranch" := JObj(map[
        "filterBranchOperator" := JStr("AND"),
        "filters" := JArr([JObj(map[
          "property" := JStr(PersonaProp), "operator" := JStr("EQ"), "value" := JStr(PersonaValue(key))])])])])
  }

  // ----- Single send -----

  /** `random.randint(1000, 9999)`. */
  type Nonce = n: int | 1000 <= n <= 9999 witness 1000

  /** The simulated single-send record. */
  function SimulatedSend(now: int, nonce: Nonce, emailId: Json, to: seq<string>, customProps: Json): Json
  {
    JObj(map[
      "mode" := JStr("simulate"),
      "messageId" := JStr("SIM-" + IntToString(now) + "-" + IntToString(nonce)),
      "to" := JArr(seq(|to|, i requires 0 <= i < |to| => JStr(to[i]))),
      "emailId" := emailId,
      "props" := Or(customProps, JObj(map[]))])
  }

  /** `eid`: the email id itself when `str(email_id)` is all digits, otherwise the
      template id from the environment, converted by `parseInt` (`None` when `int()`
      raises ValueError); `int(None)` for an unset variable raises TypeError. */
  function EmailId(env: Env, emailId: Json, repr: Repr, parseInt: string -> Option<int>): (r: Result<int, PyError>)
    ensures IsDigits(Str(emailId, repr)) ==> r == Success(DigitsValue(Str(emailId, repr))) && r.value >= 0
    ensures !IsDigits(Str(emailId, repr)) && "HUBSPOT_EMAIL_TEMPLATE_ID" !in env ==> r == Failure(TypeError)
    ensures !IsDigits(Str(emailId, repr)) && "HUBSPOT_EMAIL_TEMPLATE_ID" in env ==>
      (r.Success? <==> parseInt(env["HUBSPOT_EMAIL_TEMPLATE_ID"]).Some?)
    ensures !IsDigits(Str(emailId, repr)) && "HUBSPOT_EMAIL_TEMPLATE_ID" in env && parseInt(env["HUBSPOT_EMAIL_TEMPLATE_ID"]).Some? ==>
      r == Success(parseInt(env["HUBSPOT_EMAIL_TEMPLATE_ID"]).value)
    ensures r.Failure? ==> r.error == TypeError || r.error == ValueError
  {
    var shown := Str(emailId, repr);
    if IsDigits(shown) then Success(DigitsValue(shown))
    else if "HUBSPOT_EMAIL_TEMPLATE_ID" !in env then Failure(TypeError)
    else match parseInt(env["HUBSPOT_EMAIL_TEMPLATE_ID"])
      case Some(n) => Success(n)
      case None => Failure(ValueError)
  }

  /** The body of one single-send request: one recipient per call. */
  function SendBody(eid: int, addr: string, customProps: Json): Json
  {
    JObj(map[
      "emailId" := JNum(eid as real),
      "message" := JObj(map["to" := JStr(addr)]),
      "customProperties" := Or(customProps, JObj(map[]))])
  }

  function SendEntry(addr: string, response: Json): Json
  {
    JObj(map["to" := JStr(addr), "response" := response])
  }

  /** The HubSpot API as seen from this client. */
  class HubSpotApi {
    const env: Env
    /** The reply to the request with index n in the session. */
    const respond: (nat, HttpRequest) -> HttpOutcome
    /** The text of `f"{type(e).__name__}: {e}"` for a caught exception. */
    const describe: ApiError -> string
    var sent: seq<HttpRequest>

    constructor (env: Env, respond: (nat, HttpRequest) -> HttpOutcome, describe: ApiError -> string)
      ensures this.env == env && this.respond == respond && this.describe == describe
      ensures sent == []
    {
      this.env := env;
      this.respond := respond;
      this.describe := describe;
      sent := [];
    }

    function Url(path: string): string
    {
      Base(env) + path
    }

    /** The request that `_req` sends for a path. */
    function ApiRequest(verb: Verb, path: string, query: map<string, Json>, body: Json): HttpRequest
    {
      HttpRequest(verb, Url(path), query, body)
    }

    /** One request on the wire. */
    method Exchange(req: HttpRequest) returns (o: HttpOutcome)
      modifies this
      ensures sent == old(sent) + [req]
      ensures o == respond(|old(sent)|, req)
    {
      o := respond(|sent|, req);
      sent := sent + [req];
    }

    /** `_req`: one request, and an exception for any status of 300 or more. */
    method Req(verb: Verb, path: string, query: map<string, Json>, body: Json) returns (r: Result<Json, ApiError>)
      modifies this
      ensures sent == old(sent) + [ApiRequest(verb, path, query, body)]
      ensures r == Checked(respond(|old(sent)|, ApiRequest(verb, path, query, body)))
    {
      var o := Exchange(ApiRequest(verb, path, query, body));
      if o.TransportFailure? {
        return Failure(Transport(o.message));
      }
      if o.status >= 300 {
        var detail := if o.json.Some? then o.json.value else JStr(o.text);
        return Failure(HttpStatus(o.status, detail));
      }
      if o.json.Some? {
        r := Success(o.json.value);
      } else {
        r := Success(JObj(map["status" := JStr("ok"), "text" := JStr(o.text)]));
      }
    }

    /** The copy-and-rewrite of the caller's properties at the start of `upsert_contact`. */
    static method RewriteProperties(properties: map<string, Json>) returns (r: Result<map<string, Json>, PyError>)
      ensures r == NormalisedProperties(properties)
    {
      var props := properties;
      if "persona" in props {
        var persona := props["persona"];
        props := props - {"persona"};
        var value := PersonaLookup(persona);
        if value.Failure? {
          return Failure(value.error);
        }
        props := props[PersonaProp := value.value];
      }
      if "hs_persona" in props {
        var hs := props["hs_persona"];
        props := props - {"hs_persona"};
        props := props[PersonaProp := hs];
      }
      r := Success(props);
    }

    function PatchContact(email: string, props: map<string, Json>): HttpRequest
    {
      HttpRequest(PATCH, Url("/crm/v3/objects/contacts/" + email), map["idProperty" := JStr("email")],
                  JObj(map["properties" := JObj(ContactRecord(email, props))]))
    }

    function CreateContact(email: string, props: map<string, Json>): HttpRequest
    {
      HttpRequest(POST, Url("/crm/v3/objects/contacts"), map[], JObj(map["properties" := JObj(ContactRecord(email, props))]))
    }

    /** `upsert_contact`: simulated without auth; otherwise an update by email, and a
        create when the update answers 404. */
    method UpsertContact(email: string, properties: map<string, Json>) returns (r: Result<Json, ApiError>)
      modifies this
      ensures NormalisedProperties(properties).Failure? ==>
        sent == old(sent) && r == Failure(Raised(NormalisedProperties(properties).error))
      ensures NormalisedProperties(properties).Success? && !HubspotAvailable(env) ==>
        var props := NormalisedProperties(properties).value;
        sent == old(sent)
        && r == Success(JObj(map["status" := JStr("simulated"), "email" := JStr(email),
                                 "properties" := JObj(ContactRecord(email, props))]))
      ensures NormalisedProperties(properties).Success? && HubspotAvailable(env) ==>
        var props := NormalisedProperties(properties).value;
        var update := respond(|old(sent)|, PatchContact(email, props));
        if update.Response? && update.status == 404 then
          && sent == old(sent) + [PatchContact(email, props), CreateContact(email, props)]
          && r == ContactReply(respond(|old(sent)| + 1, CreateContact(email, props)))
        else
          && sent == old(sent) + [PatchContact(email, props)]
          && r == ContactReply(update)
    {
      var normalised := RewriteProperties(properties);
      if normalised.Failure? {
        return Failure(Raised(normalised.error));
      }
      var props := normalised.value;
      if !HubspotAvailable(env) {
        return Success(JObj(map["status" := JStr("simulated"), "email" := JStr(email),
                                "properties" := JObj(ContactRecord(email, props))]));
      }
      r := UpdateOrCreate(email, props);
    }

    /** The live half of `upsert_contact`: update by email, create on 404. */
    method UpdateOrCreate(email: string, props: map<string, Json>) returns (r: Result<Json, ApiError>)
      modifies this
      ensures var update := respond(|old(sent)|, PatchContact(email, props));
        if update.Response? && update.status == 404 then
          && sent == old(sent) + [PatchContact(email, props), CreateContact(email, props)]
          && r == ContactReply(respond(|old(sent)| + 1, CreateContact(email, props)))
        else
          && sent == old(sent) + [PatchContact(email, props)]
          && r == ContactReply(update)
    {
      var update := Exchange(PatchContact(email, props));
      if update.Response? && update.status == 404 {
        var create := Exchange(CreateContact(email, props));
        r := ContactReply(create);
      } else {
        r := ContactReply(update);
      }
    }

    /** The loop that reshapes the search hits. */
    static method MapContacts(hits: seq<Json>) returns (r: Result<seq<Json>, PyError>)
      ensures r == ContactItems(hits)
    {
      var items: seq<Json> := [];
      for i := 0 to |hits|
        invariant ContactItems(hits[..i]) == Success(items)
      {
        assert hits[..i + 1][..i] == hits[..i];
        var item := ContactItem(hits[i]);
        if item.Failure? {
          assert ContactItems(hits[..i + 1]) == Failure(item.error);
          ContactItemsFailurePersists(hits, i + 1);
          return Failure(item.error);
        }
        items := items + [item.value];
      }
      assert hits[..|hits|] == hits;
      r := Success(items);
    }

    /** `search_contacts_by_persona`. */
    method SearchContactsByPersona(personaValueOrKey: string, limit: int) returns (r: Result<Json, ApiError>)
      modifies this
      ensures !HubspotAvailable(env) ==> sent == old(sent) && r == Success(SearchReply("simulated", [
        JObj(map["email" := JStr("sim_" + PersonaValue(personaValueOrKey) + "@example.com"),
                 "persona" := JStr(PersonaValue(personaValueOrKey))])]))
      ensures HubspotAvailable(env) ==>
        var req := ApiRequest(POST, "/crm/v3/objects/contacts/search", map[], SearchBody(PersonaValue(personaValueOrKey), limit));
        sent == old(sent) + [req] && r == SearchOutcome(Checked(respond(|old(sent)|, req)))
    {
      var personaValue := PersonaValue(personaValueOrKey);
      if !HubspotAvailable(env) {
        return Success(SearchReply("simulated", [
          JObj(map["email" := JStr("sim_" + personaValue + "@example.com"), "persona" := JStr(personaValue)])]));
      }
      var res := Req(POST, "/crm/v3/objects/contacts/search", map[], SearchBody(personaValue, limit));
      if res.Failure? {
        return Failure(res.error);
      }
      if !res.value.JObj? {
        return Failure(Raised(AttributeError));
      }
      var hits := Iterate(Get(res.value.fields, "results", JArr([])));
      if hits.Failure? {
        return Failure(Raised(hits.error));
      }
      var items := MapContacts(hits.value);
      if items.Failure? {
        return Failure(Raised(items.error));
      }
      r := Success(SearchReply("ok", items.value));
    }

    /** The early-return scan for a list with the given name. */
    static method FindList(lists: seq<Json>, name: string) returns (r: Result<Option<Json>, PyError>)
      ensures r == FirstNamed(lists, name)
    {
      var i := 0;
      while i < |lists|
        invariant 0 <= i <= |lists|
        invariant FirstNamed(lists[i..], name) == FirstNamed(lists, name)
      {
        var lst := lists[i];
        assert lists[i..][1..] == lists[i + 1..];
        if !lst.JObj? {
          return Failure(AttributeError);
        }
        if Get(lst.fields, "name", JNull) == JStr(name) {
          return Success(Some(lst));
        }
        i := i + 1;
      }
      r := Success(None);
    }

    const ListsPath: string := "/crm/v3/lists"

    function ListsRequest(): HttpRequest
    {
      ApiRequest(GET, ListsPath, map["limit" := JNum(100.0)], JNull)
    }

    function CreateListRequest(key: string): HttpRequest
    {
      ApiRequest(POST, ListsPath, map[], CreateListBody(key))
    }

    /** The result once the create request has been answered. */
    function CreatedList(key: string, created: Result<Json, ApiError>): Json
    {
      match created
      case Failure(e) => SimulatedList(key, Some(describe(e)))
      case Success(v) =>
        if v.JObj? then ListRecord(ListId(v.fields), key, true)
        else SimulatedList(key, Some(describe(Raised(AttributeError))))
    }

    /** The checks on the lists reply and the scan, as the method body performs them. */
    static method ScanListsReply(fetched: Result<Json, ApiError>, name: string) returns (r: Result<Option<Json>, ApiError>)
      ensures r == ScanLists(fetched, name)
    {
      if fetched.Failure? {
        return Failure(fetched.error);
      }
      if !fetched.value.JObj? {
        return Failure(Raised(AttributeError));
      }
      var lists := Iterate(Or(Get(fetched.value.fields, "results", JNull), JArr([])));
      if lists.Failure? {
        return Failure(Raised(lists.error));
      }
      var found := FindList(lists.value, name);
      if found.Failure? {
        return Failure(Raised(found.error));
      }
      r := Success(found.value);
    }

    /** `ensure_persona_list`: simulated without auth; otherwise the first list with
        the persona's name, or a newly created one; any exception on the way gives
        the simulated record with a note. */
    method EnsurePersonaList(key: string) returns (r: Json)
      modifies this
      ensures !HubspotAvailable(env) ==> sent == old(sent) && r == SimulatedList(key, None)
      ensures HubspotAvailable(env) ==>
        var scan := ScanLists(Checked(respond(|old(sent)|, ListsRequest())), ListName(key));
        if scan.Failure? then sent == old(sent) + [ListsRequest()] && r == SimulatedList(key, Some(describe(scan.error)))
        else if scan.value.Some? then sent == old(sent) + [ListsRequest()] && r == ListRecord(ListId(scan.value.value.fields), key, false)
        else
          && sent == old(sent) + [ListsRequest(), CreateListRequest(key)]
          && r == CreatedList(key, Checked(respond(|old(sent)| + 1, CreateListRequest(key))))
    {
      if !HubspotAvailable(env) {
        return SimulatedList(key, None);
      }
      r := LiveList(key);
    }

    /** The part of `ensure_persona_list` inside its `try`. */
    method LiveList(key: string) returns (r: Json)
      modifies this
      ensures
        var scan := ScanLists(Checked(respond(|old(sent)|, ListsRequest())), ListName(key));
        if scan.Failure? then sent == old(sent) + [ListsRequest()] && r == SimulatedList(key, Some(describe(scan.error)))
        else if scan.value.Some? then sent == old(sent) + [ListsRequest()] && r == ListRecord(ListId(scan.value.value.fields), key, false)
        else
          && sent == old(sent) + [ListsRequest(), CreateListRequest(key)]
          && r == CreatedList(key, Checked(respond(|old(sent)| + 1, CreateListRequest(key))))
    {
      var fetched := Req(GET, ListsPath, map["limit" := JNum(100.0)], JNull);
      var scan := ScanListsReply(fetched, ListName(key));
      if scan.Failure? {
        return SimulatedList(key, Some(describe(scan.error)));
      }
      if scan.value.Some? {
        return ListRecord(ListId(scan.value.value.fields), key, false);
      }
      r := CreateList(key);
    }

    /** The create request of `ensure_persona_list` and the record made of its result. */
    method CreateList(key: string) returns (r: Json)
      modifies this
      ensures sent == old(sent) + [CreateListRequest(key)]
      ensures r == CreatedList(key, Checked(respond(|old(sent)|, CreateListRequest(key))))
    {
      var created := Req(POST, ListsPath, map[], CreateListBody(key));
      r := CreatedList(key, created);
    }

    /** The single-send request for one address. */
    function SendRequest(eid: int, addr: string, customProps: Json): HttpRequest
    {
      ApiRequest(POST, "/marketing/v4/email/single-send", map[], SendBody(eid, addr, customProps))
    }

    /** The requests of the sends to the first `k` addresses of `to`, one per address, in order. */
    function SendRequests(eid: int, to: seq<string>, k: nat, customProps: Json): (reqs: seq<HttpRequest>)
      requires k <= |to|
      ensures |reqs| == k
      ensures forall i :: 0 <= i < k ==> reqs[i] == SendRequest(eid, to[i], customProps)
    {
      seq(k, i requires 0 <= i < k => SendRequest(eid, to[i], customProps))
    }

    /** The reply to the i-th send of a loop whose first request has index `n0`. */
    function SendReply(n0: nat, eid: int, customProps: Json): (nat, string) -> Result<Json, ApiError>
    {
      (i: nat, addr: string) => Checked(respond(n0 + i, SendRequest(eid, addr, customProps)))
    }

    lemma SendRequestsStep(log: seq<HttpRequest>, eid: int, to: seq<string>, customProps: Json, i: nat)
      requires i < |to|
      ensures log + SendRequests(eid, to, i, customProps) + [SendRequest(eid, to[i], customProps)]
           == log + SendRequests(eid, to, i + 1, customProps)
    {
      assert SendRequests(eid, to, i + 1, customProps) == SendRequests(eid, to, i, customProps) + [SendRequest(eid, to[i], customProps)];
    }

    /** The single-send request to the `i`-th address of a loop whose first request
        was the `n0`-th of the session. */
    method SendTo(eid: int, to: seq<string>, i: nat, customProps: Json, ghost n0: nat) returns (res: Result<Json, ApiError>)
      requires i < |to| && |sent| == n0 + i
      modifies this
      ensures sent == old(sent) + [SendRequest(eid, to[i], customProps)]
      ensures res == SendReply(n0, eid, customProps)(i, to[i])
    {
      res := Req(POST, "/marketing/v4/email/single-send", map[], SendBody(eid, to[i], customProps));
    }

    /** The loop of `single_send_marketing_email`: one request per address, stopping
        at the first that raises. */
    method SendEach(eid: int, to: seq<string>, customProps: Json) returns (r: Result<seq<Json>, ApiError>)
      modifies this
      ensures r == SendLoop(SendReply(|old(sent)|, eid, customProps), to, |to|)
      ensures sent == old(sent) + SendRequests(eid, to, SendAttempts(SendReply(|old(sent)|, eid, customProps), to, |to|), customProps)
    {
      ghost var n0 := |sent|;
      ghost var reply := SendReply(n0, eid, customProps);
      var results: seq<Json> := [];
      for i := 0 to |to|
        invariant SendLoop(reply, to, i) == Success(results)
        invariant SendAttempts(reply, to, i) == i
        invariant sent == old(sent) + SendRequests(eid, to, i, customProps)
        invariant |sent| == n0 + i
      {
        SendRequestsStep(old(sent), eid, to, customProps, i);
        var res := SendTo(eid, to, i, customProps, n0);
        if res.Failure? {
          SendLoopFails(reply, to, i, res.error);
          return Failure(res.error);
        }
        results := results + [SendEntry(to[i], res.value)];
      }
      r := Success(results);
    }

    /** `single_send_marketing_email`. */
    method SingleSendMarketingEmail(emailId: Json, to: seq<string>, customProps: Json, now: int, nonce: Nonce,
                                    repr: Repr, parseInt: string -> Option<int>) returns (r: Result<Json, ApiError>)
      modifies this
      ensures !CanSend(env) ==> sent == old(sent) && r == Success(SimulatedSend(now, nonce, emailId, to, customProps))
      ensures CanSend(env) && EmailId(env, emailId, repr, parseInt).Failure? ==>
        sent == old(sent) && r == Failure(Raised(EmailId(env, emailId, repr, parseInt).error))
      ensures CanSend(env) && EmailId(env, emailId, repr, parseInt).Success? ==>
        var eid := EmailId(env, emailId, repr, parseInt).value;
        var reply := SendReply(|old(sent)|, eid, customProps);
        && sent == old(sent) + SendRequests(eid, to, SendAttempts(reply, to, |to|), customProps)
        && r == match SendLoop(reply, to, |to|)
                case Failure(e) => Failure(e)
                case Success(entries) => Success(JObj(map["mode" := JStr("send"), "results" := JArr(entries)]))
    {
      if !CanSend(env) {
        return Success(SimulatedSend(now, nonce, emailId, to, customProps));
      }
      var eid := EmailId(env, emailId, repr, parseInt);
      if eid.Failure? {
        return Failure(Raised(eid.error));
      }
      var results := SendEach(eid.value, to, customProps);
      if results.Failure? {
        return Failure(results.error);
      }
      r := Success(JObj(map["mode" := JStr("send"), "results" := JArr(results.value)]));
    }
  }

  // ----- The send loop, for any sequence of replies -----

  /** A reply per send: the index of the send in the loop and its address. */
  type SendReplies = (nat, string) -> Result<Json, ApiError>

  /** The entries the send loop gathers over the first `n` addresses, or the first
      error, which ends it. */
  function SendLoop(reply: SendReplies, to: seq<string>, n: nat): Result<seq<Json>, ApiError>
    requires n <= |to|
  {
    if n == 0 then Success([])
    else
      match SendLoop(reply, to, n - 1)
      case Failure(e) => Failure(e)
      case Success(entries) =>
        match reply(n - 1, to[n - 1])
        case Failure(e) => Failure(e)
        case Success(res) => Success(entries + [SendEntry(to[n - 1], res)])
  }

  /** How many requests the send loop issues over the first `n` addresses: all of
      them, or up to and including the first that fails. */
  function SendAttempts(reply: SendReplies, to: seq<string>, n: nat): (k: nat)
    requires n <= |to|
    ensures k <= n
  {
    if n == 0 then 0
    else if SendLoop(reply, to, n - 1).Failure? then SendAttempts(reply, to, n - 1) else n
  }

  /** One more address whose request fails: the whole loop fails with that error,
      after i + 1 requests. */
  lemma SendLoopFails(reply: SendReplies, to: seq<string>, i: nat, e: ApiError)
    requires i < |to| && SendLoop(reply, to, i).Success? && reply(i, to[i]) == Failure(e)
    ensures SendLoop(reply, to, |to|) == Failure(e)
    ensures SendAttempts(reply, to, |to|) == i + 1
  {
    SendLoopFailurePersists(reply, to, i + 1, |to|);
  }

  /** Once the send loop has failed on a prefix, it has failed on every longer one,
      after the same number of requests. */
  lemma {:induction false} SendLoopFailurePersists(reply: SendReplies, to: seq<string>, k: nat, n: nat)
    requires k <= n <= |to| && SendLoop(reply, to, k).Failure?
    ensures SendLoop(reply, to, n) == SendLoop(reply, to, k)
    ensures SendAttempts(reply, to, n) == SendAttempts(reply, to, k)
    decreases n
  {
    if k < n {
      SendLoopFailurePersists(reply, to, k, n - 1);
    }
  }

  /** A completed send has one entry per address, in order, each pairing the address
      with the reply to its own request. */
  lemma {:induction false} SendLoopComplete(reply: SendReplies, to: seq<string>, n: nat)
    requires n <= |to| && SendLoop(reply, to, n).Success?
    ensures SendAttempts(reply, to, n) == n
    ensures var entries := SendLoop(reply, to, n).value;
      && |entries| == n
      && forall i :: 0 <= i < n ==> reply(i, to[i]).Success? && entries[i] == SendEntry(to[i], reply(i, to[i]).value)
  {
    if n > 0 {
      SendLoopComplete(reply, to, n - 1);
    }
  }

  /** A failed send stops after the first failing request, whose error it reports;
      every request before it succeeded. */
  lemma {:induction false} SendLoopStops(reply: SendReplies, to: seq<string>, n: nat)
    requires n <= |to| && SendLoop(reply, to, n).Failure?
    ensures var k := SendAttempts(reply, to, n);
      && 1 <= k
      && reply(k - 1, to[k - 1]).Failure?
      && SendLoop(reply, to, n).error == reply(k - 1, to[k - 1]).error
      && forall i :: 0 <= i < k - 1 ==> reply(i, to[i]).Success?
  {
    if SendLoop(reply, to, n - 1).Failure? {
      SendLoopStops(reply, to, n - 1);
    } else {
      SendLoopComplete(reply, to, n - 1);
    }
  }

  /** Once a prefix of the hits fails to reshape, the whole reply does, with the same error. */
  lemma {:induction false} ContactItemsFailurePersists(hits: seq<Json>, k: nat)
    requires k <= |hits| && ContactItems(hits[..k]).Failure?
    ensures ContactItems(hits) == ContactItems(hits[..k])
    decreases |hits| - k
  {
    if k < |hits| {
      assert hits[..k + 1][..k] == hits[..k];
      ContactItemsFailurePersists(hits, k + 1);
    } else {
      assert hits[..k] == hits;
    }
  }

  /** Every list outcome names the list "[Auto] Persona: key", and a simulated outcome
      always carries the list id "sim-list-key". */
  lemma ListOutcomeNames(key: string, note: Option<string>, listId: Json, created: bool)
    ensures SimulatedList(key, note).fields["name"] == JStr("[Auto] Persona: " + key)
    ensures SimulatedList(key, note).fields["list_id"] == JStr("sim-list-" + key)
    ensures SimulatedList(key, note).fields["status"] == JStr("simulated")
    ensures ListRecord(listId, key, created).fields["name"] == JStr("[Auto] Persona: " + key)
  {
  }
}
