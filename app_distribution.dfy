/**
 * The distribution helpers of the Streamlit script app.py: which files count as
 * content files, which persona newsletters a content file lacks, the custom
 * properties handed to the single-send email, the recipient list and the
 * newsletter id written to the send log.
 *
 * A content file is the decoded top-level object (`data`); the environment is
 * `HubSpot.Env`; `str()` of a non-string value is the parameter `repr`.
 */
module Distribution {
  import opened Wrappers
  import opened Text
  import opened PyJson
  import opened HubSpot

  // ----- Content files -----

  /** `norm(p)`: backslashes become forward slashes. */
  function Norm(p: string): (q: string)
    ensures |q| == |p| && '\\' !in q
    ensures forall i :: 0 <= i < |p| && p[i] != '\\' ==> q[i] == p[i]
    ensures forall i :: 0 <= i < |p| && p[i] == '\\' ==> q[i] == '/'
  {
    ReplaceChar(p, '\\', '/')
  }

  /** Normalising twice is normalising once. */
  lemma NormIdempotent(p: string)
    ensures Norm(Norm(p)) == Norm(p)
  {
  }

  /** The test a listed path must pass to be offered as a content file. */
  predicate IsContentFile(p: string)
  {
    var q := Norm(p);
    EndsWith(q, ".json") && !Contains(q, "google_docs_index") && Contains(q, "/content/")
  }

  /** The content files among the listed paths, in listing order. */
  function ContentFiles(raw: seq<string>): (files: seq<string>)
    ensures |files| <= |raw|
    ensures forall p :: p in files <==> p in raw && IsContentFile(p)
  {
    if raw == [] then []
    else
      var init, p := raw[..|raw| - 1], raw[|raw| - 1];
      assert raw == init + [p];
      ContentFiles(init) + (if IsContentFile(p) then [p] else [])
  }

  /** The filter keeps the listing order: it works path by path. */
  lemma {:induction false} ContentFilesAppend(a: seq<string>, b: seq<string>)
    ensures ContentFiles(a + b) == ContentFiles(a) + ContentFiles(b)
    decreases |b|
  {
    if b == [] {
      assert a + b == a;
    } else {
      var init := b[..|b| - 1];
      assert (a + b)[..|a + b| - 1] == a + init;
      ContentFilesAppend(a, init);
    }
  }

  /** Filtering the content files again changes nothing. */
  lemma {:induction false} ContentFilesIdempotent(raw: seq<string>)
    ensures ContentFiles(ContentFiles(raw)) == ContentFiles(raw)
  {
    if raw != [] {
      var init, p := raw[..|raw| - 1], raw[|raw| - 1];
      ContentFilesIdempotent(init);
      var tail := if IsContentFile(p) then [p] else [];
      ContentFilesAppend(ContentFiles(init), tail);
      assert ContentFiles(tail) == tail by {
        if tail != [] {
          assert tail[..0] == [];
        }
      }
    }
  }

  /** A path passes the filter exactly when its normalised form does. */
  lemma ContentFileNormalised(p: string)
    ensures IsContentFile(Norm(p)) <==> IsContentFile(p)
  {
    NormIdempotent(p);
  }

  // ----- Missing persona newsletters -----

  /** The personas a content file is checked for, in the order they are reported. */
  const CheckedPersonas: seq<string> := ["founder", "creative", "ops"]

  /** `data.get("newsletters") or {}`. */
  function NewslettersOf(data: map<string, Json>): Json
  {
    Or(Get(data, "newsletters", JNull), JObj(map[]))
  }

  /** The values on which Python's `in` is defined, as far as decoded JSON goes. */
  predicate Searchable(v: Json)
  {
    v.JObj? || v.JArr? || v.JStr?
  }

  /** `k in v`: a key of a dict, an element of a list, a substring of a string. */
  predicate PyIn(k: string, v: Json)
    requires Searchable(v)
  {
    match v
    case JObj(m) => k in m
    case JArr(items) => JStr(k) in items
    case JStr(s) => Contains(s, k)
  }

  /** Where a checked persona stands in the report order. */
  function Rank(k: string): nat
  {
    if k == "founder" then 0 else if k == "creative" then 1 else 2
  }

  /** The personas among the first `n` checked ones that are absent from `v`. */
  function MissingUpTo(v: Json, n: nat): (r: seq<string>)
    requires Searchable(v) && n <= |CheckedPersonas|
    ensures forall k :: k in r <==> k in CheckedPersonas[..n] && !PyIn(k, v)
    ensures forall i :: 0 <= i < |r| ==> Rank(r[i]) < n
    ensures forall i, j :: 0 <= i < j < |r| ==> Rank(r[i]) < Rank(r[j])
    ensures r == [] <==> forall j :: 0 <= j < n ==> PyIn(CheckedPersonas[j], v)
  {
    if n == 0 then []
    else
      var k := CheckedPersonas[n - 1];
      assert CheckedPersonas[..n] == CheckedPersonas[..n - 1] + [k];
      assert Rank(k) == n - 1;
      MissingUpTo(v, n - 1) + (if PyIn(k, v) then [] else [k])
  }

  /** The `missing` list: the checked personas the newsletters lack, in check order.
      A truthy number or boolean in place of the newsletters makes `in` raise. */
  function MissingPersonas(data: map<string, Json>): (r: Result<seq<string>, PyError>)
    ensures r.Failure? <==> !Searchable(NewslettersOf(data))
    ensures r.Failure? ==> r.error == TypeError
    ensures r.Success? ==>
      && (forall k :: k in r.value <==> k in CheckedPersonas && !PyIn(k, NewslettersOf(data)))
      && (forall i, j :: 0 <= i < j < |r.value| ==> Rank(r.value[i]) < Rank(r.value[j]))
      && (r.value == [] <==> forall j :: 0 <= j < |CheckedPersonas| ==> PyIn(CheckedPersonas[j], NewslettersOf(data)))
  {
    var v := NewslettersOf(data);
    if Searchable(v) then
      assert CheckedPersonas[..|CheckedPersonas|] == CheckedPersonas;
      Success(MissingUpTo(v, |CheckedPersonas|))
    else Failure(TypeError)
  }

  /** When none of the first `n` checked personas is present, all of them are missing, in order. */
  lemma {:induction false} NonePresentAllMissing(v: Json, n: nat)
    requires Searchable(v) && n <= |CheckedPersonas|
    requires forall j :: 0 <= j < n ==> !PyIn(CheckedPersonas[j], v)
    ensures MissingUpTo(v, n) == CheckedPersonas[..n]
  {
    if n > 0 {
      NonePresentAllMissing(v, n - 1);
      assert CheckedPersonas[..n] == CheckedPersonas[..n - 1] + [CheckedPersonas[n - 1]];
    }
  }

  /** A content file with no newsletters at all lacks every persona. */
  lemma NoNewslettersAllMissing(data: map<string, Json>)
    requires !Truthy(Get(data, "newsletters", JNull))
    ensures MissingPersonas(data) == Success(CheckedPersonas)
  {
    var v := NewslettersOf(data);
    assert v == JObj(map[]);
    NonePresentAllMissing(v, |CheckedPersonas|);
    assert CheckedPersonas[..|CheckedPersonas|] == CheckedPersonas;
  }

  // ----- Custom properties of a send -----

  const DocsHome: string := "https://docs.google.com"
  const DefaultPreheader: string := "This week\U{2019}s top automation insight"
  const DefaultBody: string := "Quick take: focus on fewer, more useful automations."
  const DefaultCtaText: string := "Read the full post"
  const ExcerptLimit: nat := 200

  /** The custom properties the template's tokens read. */
  datatype Props = Props(
    persona: string,
    blogSlug: Json,
    blogTitle: Json,
    blogExcerpt: Json,
    nlSubject: Json,
    nlPreheader: Json,
    nlHeadline: Json,
    nlBody: Json,
    ctaText: Json,
    ctaUrl: Json)

  /** The props as the dict handed to `single_send_marketing_email`. */
  function PropsJson(p: Props): (j: Json)
    ensures j.JObj? && "persona" in j.fields && "cta_url" in j.fields
    ensures j.fields["persona"] == JStr(p.persona) && j.fields["cta_url"] == p.ctaUrl
  {
    JObj(map[
      "persona" := JStr(p.persona),
      "blog_slug" := p.blogSlug,
      "blog_title" := p.blogTitle,
      "blog_excerpt" := p.blogExcerpt,
      "nl_subject" := p.nlSubject,
      "nl_preheader" := p.nlPreheader,
      "nl_headline" := p.nlHeadline,
      "nl_body" := p.nlBody,
      "cta_text" := p.ctaText,
      "cta_url" := p.ctaUrl])
  }

  /** The newsletter of persona `key`: `{}` when absent; a non-dict in place of the
      newsletters or of the newsletter makes `.get` raise. */
  function NewsletterFor(data: map<string, Json>, key: string): (r: Result<map<string, Json>, PyError>)
    ensures r.Failure? ==> r.error == AttributeError
    ensures r.Success? <==> NewslettersOf(data).JObj? && Get(NewslettersOf(data).fields, key, JObj(map[])).JObj?
    ensures r.Success? && key in NewslettersOf(data).fields ==> r.value == NewslettersOf(data).fields[key].fields
    ensures r.Success? && key !in NewslettersOf(data).fields ==> r.value == map[]
  {
    var nls := NewslettersOf(data);
    if !nls.JObj? then Failure(AttributeError)
    else
      var nl := Get(nls.fields, key, JObj(map[]));
      if nl.JObj? then Success(nl.fields) else Failure(AttributeError)
  }

  /** BLOG_BASE_URL with every trailing "/" removed. */
  function BlogBase(env: Env): (base: string)
    ensures base <= GetEnv(env, "BLOG_BASE_URL", "")
    ensures base == [] || base[|base| - 1] != '/'
    ensures forall i :: |base| <= i < |GetEnv(env, "BLOG_BASE_URL", "")| ==> GetEnv(env, "BLOG_BASE_URL", "")[i] == '/'
  {
    TrimRightChar(GetEnv(env, "BLOG_BASE_URL", ""), '/')
  }

  /** The post URL built from the base: "{base}/{slug}" when both are present, else the base. */
  function PostUrl(base: string, slug: Json, repr: Repr): (url: string)
    ensures base != [] && Truthy(slug) ==> url == base + "/" + Str(slug, repr)
    ensures !(base != [] && Truthy(slug)) ==> url == base
  {
    if base != [] && Truthy(slug) then base + "/" + Str(slug, repr) else base
  }

  /** The call-to-action URL: the newsletter's own, then the doc URL, then the post
      URL, then the base, then the docs home page. It is never empty. */
  function CtaUrl(nl: map<string, Json>, data: map<string, Json>, base: string, repr: Repr): (url: Json)
    ensures Truthy(url)
    ensures Truthy(Get(nl, "cta_url", JNull)) ==> url == nl["cta_url"]
    ensures !Truthy(Get(nl, "cta_url", JNull)) && Truthy(Get(data, "doc_url", JNull)) ==> url == data["doc_url"]
    ensures !Truthy(Get(nl, "cta_url", JNull)) && !Truthy(Get(data, "doc_url", JNull)) ==>
      var slug := Get(data, "slug", JStr(""));
      url == JStr(if base != [] && Truthy(slug) then base + "/" + Str(slug, repr)
                  else if base != [] then base
                  else DocsHome)
  {
    var docUrl := Or(Get(data, "doc_url", JNull), JStr(""));
    var fallback := PostUrl(base, Get(data, "slug", JStr("")), repr);
    Or(Or(Or(Get(nl, "cta_url", JNull), docUrl), JStr(fallback)), JStr(DocsHome))
  }

  /** `s[:200]` on a string or a list; any other value cannot be sliced. */
  function Head(v: Json): (r: Result<Json, PyError>)
    ensures r.Failure? <==> !(v.JStr? || v.JArr?)
    ensures r.Success? && v.JStr? ==> r.value.JStr? && |r.value.s| <= ExcerptLimit && r.value.s <= v.s
    ensures r.Success? && v.JStr? && |v.s| <= ExcerptLimit ==> r.value == v
    ensures r.Success? && v.JStr? ==> |r.value.s| == if |v.s| <= ExcerptLimit then |v.s| else ExcerptLimit
    ensures r.Success? && v.JArr? ==>
      && r.value.JArr? && r.value.items <= v.items
      && |r.value.items| == (if |v.items| <= ExcerptLimit then |v.items| else ExcerptLimit)
  {
    match v
    case JStr(s) => Success(JStr(if |s| <= ExcerptLimit then s else s[..ExcerptLimit]))
    case JArr(items) => Success(JArr(if |items| <= ExcerptLimit then items else items[..ExcerptLimit]))
    case _ => Failure(TypeError)
  }

  /** The excerpt: the newsletter's own when truthy, else the head of a truthy blog,
      else "". */
  function Excerpt(nl: map<string, Json>, data: map<string, Json>): (r: Result<Json, PyError>)
    ensures Truthy(Get(nl, "excerpt", JNull)) ==> r == Success(nl["excerpt"])
    ensures !Truthy(Get(nl, "excerpt", JNull)) && !Truthy(Get(data, "blog", JNull)) ==> r == Success(JStr(""))
    ensures !Truthy(Get(nl, "excerpt", JNull)) && Truthy(Get(data, "blog", JNull)) ==> r == Head(data["blog"])
  {
    var own := Get(nl, "excerpt", JNull);
    if Truthy(own) then Success(own)
    else if Truthy(Get(data, "blog", JNull)) then Head(Get(data, "blog", JStr("")))
    else Success(JStr(""))
  }

  /** `build_props(key)`. */
  function BuildProps(data: map<string, Json>, key: string, env: Env, repr: Repr): (r: Result<Props, PyError>)
    ensures r.Failure? <==> NewsletterFor(data, key).Failure? || Excerpt(NewsletterFor(data, key).value, data).Failure?
    ensures r.Success? ==>
      var nl, p := NewsletterFor(data, key).value, r.value;
      && p.persona == key
      && p.blogSlug == Get(data, "slug", JStr(""))
      && p.blogTitle == Get(data, "topic", JStr(""))
      && p.blogExcerpt == Excerpt(nl, data).value
      && p.ctaUrl == CtaUrl(nl, data, BlogBase(env), repr)
      && p.nlSubject == Or(Get(nl, "subject", JNull), JStr(Str(Get(data, "topic", JStr("")), repr) + " \U{2014} for " + key))
      && p.nlPreheader == Or(Get(nl, "preheader", JNull), JStr(DefaultPreheader))
      && p.nlHeadline == Or(Get(nl, "headline", JNull), Get(data, "topic", JStr("")))
      && p.nlBody == Or(Get(nl, "body", JNull), JStr(DefaultBody))
      && p.ctaText == Or(Get(nl, "cta_text", JNull), JStr(DefaultCtaText))
  {
    match NewsletterFor(data, key)
    case Failure(e) => Failure(e)
    case Success(nl) =>
      match Excerpt(nl, data)
      case Failure(e) => Failure(e)
      case Success(excerpt) =>
        var topic := Get(data, "topic", JStr(""));
        Success(Props(
          key,
          Get(data, "slug", JStr("")),
          topic,
          excerpt,
          Or(Get(nl, "subject", JNull), JStr(Str(topic, repr) + " \U{2014} for " + key)),
          Or(Get(nl, "preheader", JNull), JStr(DefaultPreheader)),
          Or(Get(nl, "headline", JNull), topic),
          Or(Get(nl, "body", JNull), JStr(DefaultBody)),
          Or(Get(nl, "cta_text", JNull), JStr(DefaultCtaText)),
          CtaUrl(nl, data, BlogBase(env), repr)))
  }

  /** The subject, preheader, body, CTA text and CTA URL of built props are never
      empty, and an excerpt taken from the blog is at most 200 characters of it. */
  lemma PropsNeverBlank(data: map<string, Json>, key: string, env: Env, repr: Repr)
    requires BuildProps(data, key, env, repr).Success?
    ensures var p := BuildProps(data, key, env, repr).value;
      && Truthy(p.nlSubject) && Truthy(p.nlPreheader) && Truthy(p.nlBody)
      && Truthy(p.ctaText) && Truthy(p.ctaUrl)
    ensures var p, nl := BuildProps(data, key, env, repr).value, NewsletterFor(data, key).value;
      !Truthy(Get(nl, "excerpt", JNull)) && Get(data, "blog", JNull).JStr? ==>
        p.blogExcerpt.JStr? && |p.blogExcerpt.s| <= ExcerptLimit && p.blogExcerpt.s <= data["blog"].s
  {
    var topic := Get(data, "topic", JStr(""));
    var subject := Str(topic, repr) + " \U{2014} for " + key;
    assert subject[|Str(topic, repr)|] == ' ';
  }

  /** A post URL joins the trimmed base and the slug with exactly one "/": the base
      part never ends in "/". */
  lemma PostUrlJoin(env: Env, slug: Json, repr: Repr)
    requires BlogBase(env) != [] && Truthy(slug)
    ensures var base := BlogBase(env);
      var url := PostUrl(base, slug, repr);
      && url[..|base|] == base && url[|base|] == '/' && url[|base| - 1] != '/'
      && base <= GetEnv(env, "BLOG_BASE_URL", "")
  {
  }

  // ----- Recipients and the send log -----

  /** What `TypedAddresses` promises about the addresses `r` taken from `pieces`,
      with `strip` standing for `Strip`. */
  predicate AddressesOf(r: seq<string>, pieces: seq<string>, strip: string -> string)
  {
    && (forall a :: a in r ==> a != [] && !IsSpace(a[0]) && !IsSpace(a[|a| - 1]))
    && (forall a :: a in r ==> exists p :: p in pieces && a == strip(p))
    && (forall p :: p in pieces && strip(p) != [] ==> strip(p) in r)
  }

  /** One more piece keeps the promise: its stripped form is added unless it is blank. */
  lemma AddressesOfSnoc(r: seq<string>, init: seq<string>, p: string, strip: string -> string)
    requires AddressesOf(r, init, strip)
    requires strip(p) == [] || (!IsSpace(strip(p)[0]) && !IsSpace(strip(p)[|strip(p)| - 1]))
    ensures AddressesOf(r + (if strip(p) != [] then [strip(p)] else []), init + [p], strip)
  {
    var extra := if strip(p) != [] then [strip(p)] else [];
    var pieces := init + [p];
    assert p in pieces;
    forall a | a in r + extra
      ensures a != [] && !IsSpace(a[0]) && !IsSpace(a[|a| - 1])
      ensures exists q :: q in pieces && a == strip(q)
    {
      if a in r {
        var q :| q in init && a == strip(q);
        assert q in pieces;
      } else {
        assert a == strip(p);
      }
    }
    forall q | q in pieces && strip(q) != []
      ensures strip(q) in r + extra
    {
      if q != p {
        assert q in init;
      }
    }
  }

  /** The addresses typed into the recipients box: each comma-separated piece,
      stripped, with blank pieces dropped. */
  function TypedAddresses(pieces: seq<string>): seq<string>
  {
    if pieces == [] then []
    else
      var p := pieces[|pieces| - 1];
      TypedAddresses(pieces[..|pieces| - 1]) + (if Strip(p) != [] then [Strip(p)] else [])
  }

  /** Every typed address is a stripped, non-blank piece, and no non-blank piece is lost. */
  lemma {:induction false} TypedAddressesSound(pieces: seq<string>)
    ensures AddressesOf(TypedAddresses(pieces), pieces, Strip)
  {
    if pieces != [] {
      var init, p := pieces[..|pieces| - 1], pieces[|pieces| - 1];
      assert pieces == init + [p];
      TypedAddressesSound(init);
      StripEnds(p);
      AddressesOfSnoc(TypedAddresses(init), init, p, Strip);
    }
  }

  /** The recipients of a send to persona `key`: the typed addresses, or
      "{key}@example.com" when none were typed. */
  function Recipients(typed: string, key: string): (r: seq<string>)
    ensures r != [] && forall a :: a in r ==> a != []
    ensures forall a :: a in r ==> ',' !in a || a == key + "@example.com"
    ensures r == [key + "@example.com"] || r == TypedAddresses(Split(typed, ','))
    ensures TypedAddresses(Split(typed, ',')) != [] ==> r == TypedAddresses(Split(typed, ','))
  {
    var typedAddresses := TypedAddresses(Split(typed, ','));
    TypedAddressesSound(Split(typed, ','));
    forall a | a in typedAddresses
      ensures ',' !in a
    {
      var p :| p in Split(typed, ',') && a == Strip(p);
      StripSlice(p);
    }
    if typedAddresses != [] then typedAddresses else [key + "@example.com"]
  }

  /** Every piece of the box that is not blank becomes a recipient. */
  lemma TypedRecipientsKept(typed: string, key: string, piece: string)
    requires piece in Split(typed, ',') && Strip(piece) != []
    ensures Strip(piece) in Recipients(typed, key)
  {
    TypedAddressesSound(Split(typed, ','));
  }

  /** An empty or blank box sends to the persona's placeholder address. */
  lemma BlankBoxDefault(typed: string, key: string)
    requires forall i :: 0 <= i < |typed| ==> IsSpace(typed[i])
    ensures Recipients(typed, key) == [key + "@example.com"]
  {
    assert ',' !in typed by {
      assert forall i :: 0 <= i < |typed| ==> typed[i] != ',';
    }
    assert Split(typed, ',') == [typed];
    assert Strip(typed) == [];
    assert TypedAddresses([typed]) == [] by {
      assert [typed][..0] == [];
    }
  }

  /** `f"{data.get('slug','')}-{key}"`. */
  function NewsletterId(data: map<string, Json>, key: string, repr: Repr): (id: string)
    ensures |id| == |Str(Get(data, "slug", JStr("")), repr)| + 1 + |key|
  {
    Str(Get(data, "slug", JStr("")), repr) + "-" + key
  }

  /** A persona key has no "-", so the newsletter id splits back at its last "-"
      into the slug and the persona, whatever the slug contains. */
  lemma NewsletterIdSplits(data: map<string, Json>, key: string, repr: Repr)
    requires '-' !in key
    ensures SplitAtLast(NewsletterId(data, key, repr), '-') == Some((Str(Get(data, "slug", JStr("")), repr), key))
  {
    var slug := Str(Get(data, "slug", JStr("")), repr);
    var id := NewsletterId(data, key, repr);
    var i := |slug|;
    assert id[i] == '-' && id[i + 1..] == key;
    assert id[..i] == slug;
  }

  /** The record appended to the send log after a send to persona `key`. */
  function SendLogRecord(now: int, sendDate: string, key: string, data: map<string, Json>, result: Json, repr: Repr): (rec: Json)
    ensures rec.JObj? && "audience" in rec.fields && "newsletter_id" in rec.fields && "hubspot_result" in rec.fields
    ensures rec.fields["audience"] == JStr(key)
    ensures rec.fields["newsletter_id"] == JStr(NewsletterId(data, key, repr))
    ensures rec.fields["hubspot_result"] == result
  {
    JObj(map[
      "ts" := JNum(now as real),
      "send_date" := JStr(sendDate),
      "audience" := JStr(key),
      "blog_title" := Get(data, "topic", JStr("")),
      "newsletter_id" := JStr(NewsletterId(data, key, repr)),
      "hubspot_result" := result])
  }
}
