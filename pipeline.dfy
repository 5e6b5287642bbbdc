/**
 * Content generation feeding distribution: the record `make_blog_and_newsletters`
 * returns is saved as JSON and read back by app.py, which builds the custom
 * properties of each persona's send from it.
 *
 * The generator writes "subject_main", "subject_alt1", "subject_alt2",
 * "preview_text" and "body", while the properties read "subject", "preheader",
 * "headline", "cta_url", "excerpt" and "cta_text". Unless the model happened to
 * emit those keys itself, every one of them falls back to its default.
 */
module Pipeline {
  import opened Wrappers
  import opened PyJson
  import opened JsonRecovery
  import opened ContentEngine
  import opened HubSpot
  import opened Distribution

  /** The content file as saved and read back, with the doc URL app.py adds once the
      document is created (absent when creating it failed). */
  function ContentJson(rec: ContentRecord, docUrl: Option<string>): (data: map<string, Json>)
    ensures "newsletters" in data && data["newsletters"].JObj?
    ensures data["newsletters"].fields.Keys == rec.newsletters.Keys
    ensures forall k :: k in rec.newsletters ==> data["newsletters"].fields[k] == JObj(rec.newsletters[k])
    ensures Get(data, "doc_url", JNull) == if docUrl.Some? then JStr(docUrl.value) else JNull
  {
    var saved := map[
      "topic" := JStr(rec.topic),
      "slug" := JStr(rec.slug),
      "created_ts" := JNum(rec.createdTs as real),
      "blog" := JStr(rec.blog),
      "newsletters" := JObj(map k | k in rec.newsletters :: JObj(rec.newsletters[k])),
      "variants" := JObj(map["titles" := JArr(rec.titles)])];
    if docUrl.Some? then saved["doc_url" := JStr(docUrl.value)] else saved
  }

  /** The fields the model emitted itself for one persona: those of the object
      recovered from its reply, none when no object was recovered. */
  function Emitted(parse: Parser, raw: string): map<string, Json>
  {
    match Extracted(parse, raw)
    case Some(JObj(fields)) => fields
    case _ => map[]
  }

  /** A key the generator does not fill in is in a generated newsletter exactly when
      the model emitted it, with the model's value. */
  lemma UnfilledKeysAreEmitted(topic: string, key: string, raw: string, parse: Parser, k: string)
    requires k !in RequiredFields
    ensures Get(Newsletter(topic, key, raw, Extracted(parse, raw)), k, JNull) == Get(Emitted(parse, raw), k, JNull)
  {
  }

  /** A saved record holding all three persona newsletters has none missing. */
  lemma SavedNoneMissing(rec: ContentRecord, docUrl: Option<string>)
    requires rec.newsletters.Keys == PersonaKeys
    ensures MissingPersonas(ContentJson(rec, docUrl)) == Success([])
  {
    var data := ContentJson(rec, docUrl);
    var v := NewslettersOf(data);
    assert "founder" in rec.newsletters;
    assert v == data["newsletters"];
  }

  /** The props of a persona whose newsletter is in a saved record read that
      newsletter; their excerpt, with no "excerpt" key, is the head of the blog. */
  lemma SavedProps(rec: ContentRecord, docUrl: Option<string>, key: string, env: Env, repr: Repr)
    requires key in rec.newsletters
    ensures var data, nl := ContentJson(rec, docUrl), rec.newsletters[key];
      && NewsletterFor(data, key) == Success(nl)
      && BuildProps(data, key, env, repr).Success?
  {
    var data, nl := ContentJson(rec, docUrl), rec.newsletters[key];
    assert NewslettersOf(data) == data["newsletters"];
    assert NewsletterFor(data, key) == Success(nl);
    assert data["blog"] == JStr(rec.blog);
  }

  /** The props of a saved record whose newsletter for `key` agrees with `emitted` on
      every key the props read from it. */
  lemma SavedPropsRead(rec: ContentRecord, docUrl: Option<string>, key: string, env: Env, repr: Repr,
                       emitted: map<string, Json>)
    requires key in rec.newsletters
    requires var nl := rec.newsletters[key];
      && Get(nl, "subject", JNull) == Get(emitted, "subject", JNull)
      && Get(nl, "preheader", JNull) == Get(emitted, "preheader", JNull)
      && Get(nl, "headline", JNull) == Get(emitted, "headline", JNull)
      && Get(nl, "cta_text", JNull) == Get(emitted, "cta_text", JNull)
      && Get(nl, "cta_url", JNull) == Get(emitted, "cta_url", JNull)
    ensures var data := ContentJson(rec, docUrl);
      && BuildProps(data, key, env, repr).Success?
      && var p := BuildProps(data, key, env, repr).value;
        && p.nlSubject == Or(Get(emitted, "subject", JNull), JStr(rec.topic + " \U{2014} for " + key))
        && p.nlPreheader == Or(Get(emitted, "preheader", JNull), JStr(DefaultPreheader))
        && p.nlHeadline == Or(Get(emitted, "headline", JNull), JStr(rec.topic))
        && p.ctaText == Or(Get(emitted, "cta_text", JNull), JStr(DefaultCtaText))
        && p.ctaUrl == CtaUrl(emitted, data, BlogBase(env), repr)
  {
    var data := ContentJson(rec, docUrl);
    SavedProps(rec, docUrl, key, env, repr);
    assert data["topic"] == JStr(rec.topic);
  }

  /** Every persona newsletter of a generated content file is present, so nothing is
      reported missing, and the props of every persona can be built. Subject,
      preheader, headline, CTA text and CTA URL come from keys the generator never
      writes: each is the model's own value when it emitted one, and the default
      otherwise. */
  lemma GeneratedContentProps(topic: string, replies: Replies, parse: Parser, slugify: string -> string,
                              now: int, docUrl: Option<string>, env: Env, repr: Repr, i: nat)
    requires i < |Personas|
    ensures var rec := ContentFor(topic, replies, parse, slugify, now);
      MissingPersonas(ContentJson(rec, docUrl)) == Success([])
    ensures var rec := ContentFor(topic, replies, parse, slugify, now);
      var data, key := ContentJson(rec, docUrl), Personas[i].0;
      var emitted := Emitted(parse, PersonaRaw(replies, i, rec.blog));
      && BuildProps(data, key, env, repr).Success?
      && var p := BuildProps(data, key, env, repr).value;
        && p.nlSubject == Or(Get(emitted, "subject", JNull), JStr(topic + " \U{2014} for " + key))
        && p.nlPreheader == Or(Get(emitted, "preheader", JNull), JStr(DefaultPreheader))
        && p.nlHeadline == Or(Get(emitted, "headline", JNull), JStr(topic))
        && p.ctaText == Or(Get(emitted, "cta_text", JNull), JStr(DefaultCtaText))
        && p.ctaUrl == CtaUrl(emitted, data, BlogBase(env), repr)
  {
    var rec := ContentFor(topic, replies, parse, slugify, now);
    var key := Personas[i].0;
    var raw := PersonaRaw(replies, i, rec.blog);
    GeneratedNoneMissing(topic, replies, parse, slugify, now, docUrl);
    NewslettersUpToValues(topic, rec.blog, replies, parse, |Personas|);
    ReadKeysEmitted(topic, key, raw, parse);
    SavedPropsRead(rec, docUrl, key, env, repr, Emitted(parse, raw));
  }

  /** A generated content file has no persona missing. */
  lemma GeneratedNoneMissing(topic: string, replies: Replies, parse: Parser, slugify: string -> string,
                             now: int, docUrl: Option<string>)
    ensures MissingPersonas(ContentJson(ContentFor(topic, replies, parse, slugify, now), docUrl)) == Success([])
  {
    NewsletterKeys(topic, replies, parse, slugify, now);
    SavedNoneMissing(ContentFor(topic, replies, parse, slugify, now), docUrl);
  }

  /** The keys the props read are, in a generated newsletter, exactly those the
      model emitted. */
  lemma ReadKeysEmitted(topic: string, key: string, raw: string, parse: Parser)
    ensures var nl, emitted := Newsletter(topic, key, raw, Extracted(parse, raw)), Emitted(parse, raw);
      && Get(nl, "subject", JNull) == Get(emitted, "subject", JNull)
      && Get(nl, "preheader", JNull) == Get(emitted, "preheader", JNull)
      && Get(nl, "headline", JNull) == Get(emitted, "headline", JNull)
      && Get(nl, "cta_text", JNull) == Get(emitted, "cta_text", JNull)
      && Get(nl, "cta_url", JNull) == Get(emitted, "cta_url", JNull)
  {
    UnfilledKeysAreEmitted(topic, key, raw, parse, "subject");
    UnfilledKeysAreEmitted(topic, key, raw, parse, "preheader");
    UnfilledKeysAreEmitted(topic, key, raw, parse, "headline");
    UnfilledKeysAreEmitted(topic, key, raw, parse, "cta_text");
    UnfilledKeysAreEmitted(topic, key, raw, parse, "cta_url");
  }

  /** With no CTA URL of its own, a saved record's CTA URL is the doc URL, the post
      URL, the base or the docs home page, the first that is not empty. */
  lemma SavedCtaDefault(rec: ContentRecord, docUrl: Option<string>, env: Env, repr: Repr)
    ensures var base := BlogBase(env);
      CtaUrl(map[], ContentJson(rec, docUrl), base, repr) ==
        if docUrl.Some? && docUrl.value != [] then JStr(docUrl.value)
        else if base != [] && rec.slug != [] then JStr(base + "/" + rec.slug)
        else if base != [] then JStr(base)
        else JStr(DocsHome)
  {
    assert ContentJson(rec, docUrl)["slug"] == JStr(rec.slug);
  }

  /** The body of the props of a saved record is the newsletter's body, or the
      default when that is empty. */
  lemma SavedBody(rec: ContentRecord, docUrl: Option<string>, key: string, env: Env, repr: Repr)
    requires key in rec.newsletters
    ensures BuildProps(ContentJson(rec, docUrl), key, env, repr).Success?
    ensures BuildProps(ContentJson(rec, docUrl), key, env, repr).value.nlBody ==
      Or(Get(rec.newsletters[key], "body", JNull), JStr(DefaultBody))
  {
    SavedProps(rec, docUrl, key, env, repr);
  }

  /** The props of a saved record whose newsletter for `key` is the fallback record
      built from `raw`: every default applies. */
  lemma SavedFallbackProps(rec: ContentRecord, docUrl: Option<string>, key: string, env: Env, repr: Repr, raw: string)
    requires key in rec.newsletters && rec.newsletters[key] == FallbackNewsletter(rec.topic, key, raw)
    ensures var props, base := BuildProps(ContentJson(rec, docUrl), key, env, repr), BlogBase(env);
      && props.Success?
      && var p := props.value;
      && p.nlSubject == JStr(rec.topic + " \U{2014} for " + key)
      && p.nlPreheader == JStr(DefaultPreheader)
      && p.nlHeadline == JStr(rec.topic)
      && p.ctaText == JStr(DefaultCtaText)
      && p.nlBody == Or(JStr(raw), JStr(DefaultBody))
      && p.ctaUrl == if docUrl.Some? && docUrl.value != [] then JStr(docUrl.value)
                     else if base != [] && rec.slug != [] then JStr(base + "/" + rec.slug)
                     else if base != [] then JStr(base)
                     else JStr(DocsHome)
  {
    var nl := rec.newsletters[key];
    assert "subject" !in nl && "preheader" !in nl && "headline" !in nl && "cta_text" !in nl && "cta_url" !in nl;
    SavedPropsRead(rec, docUrl, key, env, repr, map[]);
    SavedCtaDefault(rec, docUrl, env, repr);
    SavedBody(rec, docUrl, key, env, repr);
  }

  /** When no JSON object could be recovered from a persona's reply, the send uses
      every default: the "{topic} — for {key}" subject, the fixed preheader and CTA
      text, the topic as headline, the reply itself as body, and a CTA URL from the
      doc URL, the post URL, the base or the docs home page, in that order. */
  lemma NoObjectAllDefaults(topic: string, replies: Replies, parse: Parser, slugify: string -> string,
                            now: int, docUrl: Option<string>, env: Env, repr: Repr, i: nat)
    requires i < |Personas|
    requires var raw := PersonaRaw(replies, i, Answer(replies, 0, BlogRequest(topic)));
      !(Extracted(parse, raw).Some? && Extracted(parse, raw).value.JObj?)
    ensures var rec := ContentFor(topic, replies, parse, slugify, now);
      var props, base := BuildProps(ContentJson(rec, docUrl), Personas[i].0, env, repr), BlogBase(env);
      && props.Success?
      && var p := props.value;
      && p.nlSubject == JStr(topic + " \U{2014} for " + Personas[i].0)
      && p.nlPreheader == JStr(DefaultPreheader)
      && p.nlHeadline == JStr(topic)
      && p.ctaText == JStr(DefaultCtaText)
      && p.nlBody == Or(JStr(PersonaRaw(replies, i, rec.blog)), JStr(DefaultBody))
      && p.ctaUrl == if docUrl.Some? && docUrl.value != [] then JStr(docUrl.value)
                     else if base != [] && rec.slug != [] then JStr(base + "/" + rec.slug)
                     else if base != [] then JStr(base)
                     else JStr(DocsHome)
  {
    var rec := ContentFor(topic, replies, parse, slugify, now);
    var key := Personas[i].0;
    var raw := PersonaRaw(replies, i, rec.blog);
    assert rec.topic == topic && rec.blog == Answer(replies, 0, BlogRequest(topic));
    NewslettersUpToValues(topic, rec.blog, replies, parse, |Personas|);
    var parsed := Extracted(parse, raw);
    assert rec.newsletters[key] == Newsletter(topic, key, raw, parsed);
    assert Newsletter(topic, key, raw, parsed) == FallbackNewsletter(topic, key, raw);
    SavedFallbackProps(rec, docUrl, key, env, repr, raw);
  }
}
