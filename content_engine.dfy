/**
 * `make_blog_and_newsletters` (content_engine.py): one blog post, three persona
 * newsletters recovered from free-form replies, and title variants. The language
 * model is a `TextGenerator`, `json.loads` the parameter `parse`, the `slugify`
 * library the parameter `slugify`, and `int(time.time())` the parameter `now`.
 */
module ContentEngine {
  import opened Wrappers
  import opened Text
  import opened PyJson
  import opened JsonRecovery
  import opened Llm

  /** What the pipeline asks the model for. The prose of the prompts is not modelled;
      each request carries the values its prompt embeds. */
  datatype Request =
    | BlogRequest(topic: string)
    | NewsletterRequest(persona: string, focus: string, blog: string)
    | TitlesRequest(topic: string)

  const CopywriterSystem: string :=
    "You are a sharp B2B marketing copywriter. Be specific, practical, and persuasive. No fluff."

  /** The personas in the order the source iterates them, with their focus phrases. */
  const Personas: seq<(string, string)> := [
    ("founder", "ROI and efficiency outcomes"),
    ("creative", "inspiration, concept quality, and time-saving"),
    ("ops", "workflow reliability, integrations, stability")
  ]

  const PersonaKeys: set<string> := {"founder", "creative", "ops"}

  /** The fields every newsletter carries. */
  const RequiredFields: seq<string> := ["subject_main", "subject_alt1", "subject_alt2", "preview_text", "body"]

  const FallbackPreview: string := "Practical takeaways from this week's piece."

  /** The record used when the reply did not yield a JSON object. */
  function FallbackNewsletter(topic: string, key: string, raw: string): map<string, Json>
  {
    map[
      "subject_main" := JStr(topic + " - " + key + " edition"),
      "subject_alt1" := JStr(topic + ": quick wins for " + key + "s"),
      "subject_alt2" := JStr(topic + ": ideas you can ship today"),
      "preview_text" := JStr(FallbackPreview),
      "body" := JStr(raw)
    ]
  }

  /** `d.setdefault(k, "")` for every `k` of `keys`, in order: present keys keep their
      values, absent ones become "", and nothing else is added. */
  function WithDefaults(d: map<string, Json>, keys: seq<string>): (r: map<string, Json>)
    ensures forall k :: k in keys ==> k in r
    ensures forall k :: k in d ==> k in r && r[k] == d[k]
    ensures forall k :: k in r && k !in d ==> k in keys && r[k] == JStr("")
  {
    if keys == [] then d
    else
      var r := WithDefaults(d, keys[..|keys| - 1]);
      var k := keys[|keys| - 1];
      if k in r then r else r[k := JStr("")]
  }

  /** The newsletter kept for one persona, from the raw reply and what extraction made of it. */
  function Newsletter(topic: string, key: string, raw: string, parsed: Option<Json>): (nl: map<string, Json>)
    ensures forall f :: f in RequiredFields ==> f in nl
    ensures parsed.Some? && parsed.value.JObj? ==>
      && (forall k :: k in parsed.value.fields ==> k in nl && nl[k] == parsed.value.fields[k])
      && (forall k :: k in nl && k !in parsed.value.fields ==> k in RequiredFields && nl[k] == JStr(""))
    ensures !(parsed.Some? && parsed.value.JObj?) ==> nl == FallbackNewsletter(topic, key, raw)
  {
    if parsed.Some? && parsed.value.JObj? then
      WithDefaults(parsed.value.fields, RequiredFields)
    else
      var fallback := FallbackNewsletter(topic, key, raw);
      var r := WithDefaults(fallback, RequiredFields);
      assert r.Keys == fallback.Keys;
      r
  }

  /** `json.loads(titles_raw)` when that is a list, otherwise `[titles_raw.strip()]`;
      the list is empty only when the model replied with an empty JSON list. */
  function Titles(parse: Parser, raw: string): (titles: seq<Json>)
    ensures titles == [] ==> parse(raw) == Some(JArr([]))
  {
    match parse(raw)
    case Some(JArr(items)) => items
    case _ => [JStr(Strip(raw))]
  }

  /** The title list is the parsed list when the reply is a JSON list, and otherwise the
      single stripped reply. */
  lemma TitlesOfReply(parse: Parser, raw: string)
    ensures parse(raw).Some? && parse(raw).value.JArr? ==> Titles(parse, raw) == parse(raw).value.items
    ensures !(parse(raw).Some? && parse(raw).value.JArr?) ==>
      |Titles(parse, raw)| == 1 && Titles(parse, raw)[0] == JStr(Strip(raw))
  {
  }

  /** `slugify(topic)[:60]`. */
  function Slug(slugify: string -> string, topic: string): (slug: string)
    ensures |slug| <= 60 && slug <= slugify(topic)
    ensures |slugify(topic)| <= 60 ==> slug == slugify(topic)
    ensures |slugify(topic)| > 60 ==> |slug| == 60
  {
    var s := slugify(topic);
    if |s| <= 60 then s else s[..60]
  }

  /** The content record the source returns. */
  datatype ContentRecord = ContentRecord(
    topic: string,
    slug: string,
    createdTs: int,
    blog: string,
    newsletters: map<string, map<string, Json>>,
    titles: seq<Json>)

  /** The model's replies to one run: `oracle` answers the model call with index
      `start + k` to the run's `k`-th call, where 0 is the blog, 1 to 3 are the personas
      in order and 4 is the titles. */
  datatype Replies = Replies(oracle: (nat, Request, string) -> string, start: nat)

  /** The reply to the `k`-th call of the run. */
  function Answer(replies: Replies, k: nat, q: Request): string
  {
    replies.oracle(replies.start + k, q, CopywriterSystem)
  }

  function PersonaRequest(i: nat, blog: string): Request
    requires i < |Personas|
  {
    NewsletterRequest(Personas[i].0, Personas[i].1, blog)
  }

  function PersonaRaw(replies: Replies, i: nat, blog: string): string
    requires i < |Personas|
  {
    Answer(replies, 1 + i, PersonaRequest(i, blog))
  }

  /** The newsletter of the `i`-th persona. */
  function PersonaNewsletter(topic: string, blog: string, replies: Replies, parse: Parser, i: nat): map<string, Json>
    requires i < |Personas|
  {
    var raw := PersonaRaw(replies, i, blog);
    Newsletter(topic, Personas[i].0, raw, Extracted(parse, raw))
  }

  /** Each persona key is one of the three, and differs from the keys before it. */
  lemma PersonaKey(i: nat)
    requires i < |Personas|
    ensures Personas[i].0 in PersonaKeys
    ensures forall j :: 0 <= j < i ==> Personas[j].0 != Personas[i].0
  {
    assert Personas[0].0 == "founder" && Personas[1].0 == "creative" && Personas[2].0 == "ops";
  }

  /** The newsletters map after the first `n` personas. */
  function NewslettersUpTo(topic: string, blog: string, replies: Replies, parse: Parser, n: nat): map<string, map<string, Json>>
    requires n <= |Personas|
  {
    if n == 0 then map[]
    else
      NewslettersUpTo(topic, blog, replies, parse, n - 1)[Personas[n - 1].0 := PersonaNewsletter(topic, blog, replies, parse, n - 1)]
  }

  /** Under the key of each of the first `n` personas is that persona's newsletter: a
      later persona never overwrites an earlier one. */
  lemma {:induction false} NewslettersUpToValues(topic: string, blog: string, replies: Replies, parse: Parser, n: nat)
    requires n <= |Personas|
    ensures forall key :: key in NewslettersUpTo(topic, blog, replies, parse, n) ==> key in PersonaKeys
    ensures forall j :: 0 <= j < n ==>
      && Personas[j].0 in NewslettersUpTo(topic, blog, replies, parse, n)
      && NewslettersUpTo(topic, blog, replies, parse, n)[Personas[j].0] == PersonaNewsletter(topic, blog, replies, parse, j)
  {
    if n > 0 {
      NewslettersUpToValues(topic, blog, replies, parse, n - 1);
      PersonaKey(n - 1);
    }
  }

  /** The `i`-th step of the persona loop stores what the reply `raw` to the `i`-th
      persona's call becomes under that persona's key. */
  lemma StoreNewsletter(topic: string, blog: string, replies: Replies, parse: Parser, i: nat, raw: string)
    requires i < |Personas|
    requires raw == Answer(replies, 1 + i, PersonaRequest(i, blog))
    ensures NewslettersUpTo(topic, blog, replies, parse, i + 1)
      == NewslettersUpTo(topic, blog, replies, parse, i)[Personas[i].0 := Newsletter(topic, Personas[i].0, raw, Extracted(parse, raw))]
  {
  }

  /** What `make_blog_and_newsletters(topic)` returns, given the model's replies. */
  function ContentFor(topic: string, replies: Replies, parse: Parser, slugify: string -> string, now: int): ContentRecord
  {
    var blog := Answer(replies, 0, BlogRequest(topic));
    ContentRecord(topic, Slug(slugify, topic), now, blog,
                  NewslettersUpTo(topic, blog, replies, parse, |Personas|),
                  Titles(parse, Answer(replies, 4, TitlesRequest(topic))))
  }

  /** The calls made up to the `n`-th persona, in order. */
  function ExpectedCalls(topic: string, blog: string, n: nat): (calls: seq<(Request, string)>)
    requires n <= |Personas|
    ensures |calls| == n + 1
  {
    if n == 0 then [(BlogRequest(topic), CopywriterSystem)]
    else ExpectedCalls(topic, blog, n - 1) + [(PersonaRequest(n - 1, blog), CopywriterSystem)]
  }

  /** One more persona call extends the log of calls by that call. */
  lemma ExpectedCallsStep(topic: string, blog: string, prefix: seq<(Request, string)>, i: nat)
    requires i < |Personas|
    ensures prefix + ExpectedCalls(topic, blog, i) + [(PersonaRequest(i, blog), CopywriterSystem)]
      == prefix + ExpectedCalls(topic, blog, i + 1)
  {
    assert ExpectedCalls(topic, blog, i + 1) == ExpectedCalls(topic, blog, i) + [(PersonaRequest(i, blog), CopywriterSystem)];
  }

  // ----- properties of the content record -----

  /** The newsletters map has exactly the keys founder, creative and ops, and the
      record of each persona is built from that persona's reply alone. */
  lemma NewsletterKeys(topic: string, replies: Replies, parse: Parser, slugify: string -> string, now: int)
    ensures var rec := ContentFor(topic, replies, parse, slugify, now);
      && rec.newsletters.Keys == PersonaKeys
      && forall i :: 0 <= i < |Personas| ==>
           var raw := PersonaRaw(replies, i, rec.blog);
           rec.newsletters[Personas[i].0] == Newsletter(topic, Personas[i].0, raw, Extracted(parse, raw))
  {
    var blog := Answer(replies, 0, BlogRequest(topic));
    var m := NewslettersUpTo(topic, blog, replies, parse, |Personas|);
    NewslettersUpToValues(topic, blog, replies, parse, |Personas|);
    assert Personas[0].0 == "founder" && Personas[1].0 == "creative" && Personas[2].0 == "ops";
    assert "founder" in m && "creative" in m && "ops" in m;
  }

  /** Every newsletter carries the five required fields, whatever the model replied. */
  lemma EveryNewsletterComplete(topic: string, replies: Replies, parse: Parser, slugify: string -> string, now: int)
    ensures var rec := ContentFor(topic, replies, parse, slugify, now);
      forall key, f :: key in rec.newsletters && f in RequiredFields ==> f in rec.newsletters[key]
  {
    var blog := Answer(replies, 0, BlogRequest(topic));
    var m := NewslettersUpTo(topic, blog, replies, parse, |Personas|);
    NewslettersUpToValues(topic, blog, replies, parse, |Personas|);
    forall key, f | key in m && f in RequiredFields
      ensures f in m[key]
    {
      var i := if key == "founder" then 0 else if key == "creative" then 1 else 2;
      assert Personas[i].0 == key;
    }
    assert ContentFor(topic, replies, parse, slugify, now).newsletters == m;
  }

  /** A persona whose reply yields no JSON object gets the fallback record: the raw reply
      as body, "{topic} - {key} edition" as main subject and the fixed preview text. */
  lemma FallbackWhenNoObject(topic: string, replies: Replies, parse: Parser, slugify: string -> string, now: int, i: nat)
    requires i < |Personas|
    requires var raw := PersonaRaw(replies, i, Answer(replies, 0, BlogRequest(topic)));
      !(Extracted(parse, raw).Some? && Extracted(parse, raw).value.JObj?)
    ensures var rec := ContentFor(topic, replies, parse, slugify, now);
      && Personas[i].0 in rec.newsletters
      && var nl := rec.newsletters[Personas[i].0];
      && nl.Keys == set f | f in RequiredFields
      && "body" in nl && "subject_main" in nl && "preview_text" in nl
      && nl["body"] == JStr(PersonaRaw(replies, i, rec.blog))
      && nl["subject_main"] == JStr(topic + " - " + Personas[i].0 + " edition")
      && nl["preview_text"] == JStr(FallbackPreview)
  {
    var blog := Answer(replies, 0, BlogRequest(topic));
    NewslettersUpToValues(topic, blog, replies, parse, |Personas|);
    var raw := PersonaRaw(replies, i, blog);
    FallbackRecord(topic, Personas[i].0, raw, Extracted(parse, raw));
  }

  /** The fallback record holds exactly the required fields, with the raw reply as body. */
  lemma FallbackRecord(topic: string, key: string, raw: string, parsed: Option<Json>)
    requires !(parsed.Some? && parsed.value.JObj?)
    ensures var nl := Newsletter(topic, key, raw, parsed);
      && nl.Keys == set f | f in RequiredFields
      && nl["body"] == JStr(raw)
      && nl["subject_main"] == JStr(topic + " - " + key + " edition")
      && nl["preview_text"] == JStr(FallbackPreview)
  {
    var fb := FallbackNewsletter(topic, key, raw);
    forall f | f in RequiredFields ensures f in fb { }
  }

  /** A title reply that is not a JSON list becomes one title: the reply with only
      whitespace cut from its two ends. */
  lemma TitlesOfProse(parse: Parser, raw: string)
    requires !(parse(raw).Some? && parse(raw).value.JArr?)
    ensures exists i, j ::
              && 0 <= i <= j <= |raw| && Titles(parse, raw) == [JStr(raw[i..j])]
              && (forall k :: 0 <= k < i ==> IsSpace(raw[k]))
              && (forall k :: j <= k < |raw| ==> IsSpace(raw[k]))
  {
    TitlesOfReply(parse, raw);
    StripSlice(raw);
  }

  /** A title reply that is not a JSON list and carries no surrounding whitespace, such as
      "not json", is its own single title. */
  lemma TitlesOfUnpaddedProse(parse: Parser, raw: string)
    requires !(parse(raw).Some? && parse(raw).value.JArr?)
    requires raw != [] && !IsSpace(raw[0]) && !IsSpace(raw[|raw| - 1])
    ensures Titles(parse, raw) == [JStr(raw)]
  {
    StripUnpadded(raw);
  }

  /** `setdefault` fills only absent keys: a reply whose object supplies `"body": null`
      keeps the null, so a newsletter field is not always a string. */
  lemma SuppliedNullKept(parse: Parser, topic: string, key: string, raw: string)
    requires parse(raw) == Some(JObj(map["body" := JNull]))
    ensures var nl := Newsletter(topic, key, raw, Extracted(parse, raw));
      && "body" in nl && nl["body"] == JNull
      && forall f :: f in RequiredFields && f != "body" ==> f in nl && nl[f] == JStr("")
  {
    DirectParseWins(parse, raw);
  }

  /** An empty reply is not JSON and holds no fence and no brace, so the fallback record
      is used, and its body is the empty reply itself. */
  lemma EmptyReplyEmptyBody(parse: Parser, topic: string, key: string)
    requires parse("").None?
    ensures Extracted(parse, "").None?
    ensures Newsletter(topic, key, "", Extracted(parse, ""))["body"] == JStr("")
    ensures Newsletter(topic, key, "", Extracted(parse, ""))["subject_main"] == JStr(topic + " - " + key + " edition")
  {
    assert Strip("") == [];
  }

  // ----- the pipeline, as the source runs it -----

  /** The `setdefault` loop; the persona loop runs it over `RequiredFields`. */
  method FillRequired(parsed: map<string, Json>, keys: seq<string>) returns (d: map<string, Json>)
    ensures d == WithDefaults(parsed, keys)
  {
    d := parsed;
    for j := 0 to |keys|
      invariant d == WithDefaults(parsed, keys[..j])
    {
      var req := keys[j];
      assert keys[..j + 1] == keys[..j] + [req];
      if req !in d {
        d := d[req := JStr("")];
      }
    }
    assert keys[..|keys|] == keys;
  }

  /** What one persona's reply becomes: extracted JSON, or the fallback record when no
      object can be recovered, with the required fields defaulted. */
  method NewsletterOfReply(topic: string, key: string, raw: string, parse: Parser) returns (nl: map<string, Json>)
    ensures nl == Newsletter(topic, key, raw, Extracted(parse, raw))
  {
    var parsed := ExtractJsonAnywhere(parse, raw);
    if !(parsed.Some? && parsed.value.JObj?) {
      nl := FallbackNewsletter(topic, key, raw);
    } else {
      nl := parsed.value.fields;
    }
    nl := FillRequired(nl, RequiredFields);
  }

  /** One iteration of the persona loop: ask for the `i`-th persona's newsletter and
      store what its reply becomes under the persona key. */
  method PersonaNewsletterStep(topic: string, blog: string, gen: TextGenerator<Request>, parse: Parser,
                               i: nat, newsletters: map<string, map<string, Json>>)
    returns (raw: string, updated: map<string, map<string, Json>>)
    requires i < |Personas|
    modifies gen
    ensures gen.calls == old(gen.calls) + [(PersonaRequest(i, blog), CopywriterSystem)]
    ensures raw == gen.Reply(|old(gen.calls)|, PersonaRequest(i, blog), CopywriterSystem)
    ensures updated == newsletters[Personas[i].0 := Newsletter(topic, Personas[i].0, raw, Extracted(parse, raw))]
  {
    raw := gen.Complete(PersonaRequest(i, blog), CopywriterSystem);
    var nl := NewsletterOfReply(topic, Personas[i].0, raw, parse);
    updated := newsletters[Personas[i].0 := nl];
  }

  /** The `i`-th iteration of the persona loop keeps its two invariants: the log holds
      the calls up to the `i + 1`-th persona and the map the newsletters of the first
      `i + 1` personas. */
  method PersonaLoopBody(topic: string, blog: string, gen: TextGenerator<Request>, parse: Parser,
                         ghost replies: Replies, ghost prefix: seq<(Request, string)>,
                         i: nat, newsletters: map<string, map<string, Json>>)
    returns (updated: map<string, map<string, Json>>)
    requires i < |Personas|
    requires replies == Replies(gen.Answers(), |prefix|)
    requires gen.calls == prefix + ExpectedCalls(topic, blog, i)
    requires newsletters == NewslettersUpTo(topic, blog, replies, parse, i)
    modifies gen
    ensures gen.calls == prefix + ExpectedCalls(topic, blog, i + 1)
    ensures updated == NewslettersUpTo(topic, blog, replies, parse, i + 1)
  {
    assert |gen.calls| == replies.start + 1 + i;
    var raw;
    raw, updated := PersonaNewsletterStep(topic, blog, gen, parse, i, newsletters);
    StoreNewsletter(topic, blog, replies, parse, i, raw);
    ExpectedCallsStep(topic, blog, prefix, i);
  }

  /** The persona loop, after the blog call, of a run whose calls are answered by
      `replies` and whose log began as `prefix`. */
  method PersonaNewsletters(topic: string, blog: string, gen: TextGenerator<Request>, parse: Parser,
                            ghost replies: Replies, ghost prefix: seq<(Request, string)>)
    returns (newsletters: map<string, map<string, Json>>)
    requires replies == Replies(gen.Answers(), |prefix|)
    requires gen.calls == prefix + ExpectedCalls(topic, blog, 0)
    modifies gen
    ensures newsletters == NewslettersUpTo(topic, blog, replies, parse, |Personas|)
    ensures gen.calls == prefix + ExpectedCalls(topic, blog, |Personas|)
  {
    newsletters := map[];
    for i := 0 to |Personas|
      invariant gen.calls == prefix + ExpectedCalls(topic, blog, i)
      invariant newsletters == NewslettersUpTo(topic, blog, replies, parse, i)
    {
      newsletters := PersonaLoopBody(topic, blog, gen, parse, replies, prefix, i, newsletters);
    }
  }

  method MakeBlogAndNewsletters(topic: string, gen: TextGenerator<Request>, parse: Parser, slugify: string -> string, now: int)
    returns (rec: ContentRecord)
    modifies gen
    ensures rec == ContentFor(topic, Replies(gen.Answers(), |old(gen.calls)|), parse, slugify, now)
    ensures gen.calls == old(gen.calls) + ExpectedCalls(topic, rec.blog, |Personas|) + [(TitlesRequest(topic), CopywriterSystem)]
  {
    ghost var replies := Replies(gen.Answers(), |gen.calls|);
    var blog := gen.Complete(BlogRequest(topic), CopywriterSystem);
    var newsletters := PersonaNewsletters(topic, blog, gen, parse, replies, old(gen.calls));
    var titlesRaw := gen.Complete(TitlesRequest(topic), CopywriterSystem);
    rec := ContentRecord(topic, Slug(slugify, topic), now, blog, newsletters, Titles(parse, titlesRaw));
  }
}
