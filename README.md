# Syntra-AI content and distribution core, modelled in Dafny

Syntra-AI is a marketing-content workflow. A language model drafts a blog post for a
topic, plus three persona newsletters: founder, creative and ops. The newsletters are
recovered from free-form replies by a JSON-extraction cascade. The distribution page
builds custom properties for each persona and sends them through HubSpot's single-send
API, or simulates the send when credentials or the send flag are missing. Logged
engagement metrics are summarised by comparing each audience's two newest sends.

This project models that core and proves properties about it.

**The modules**

| file | module | models |
|---|---|---|
| `json_recovery.dfy` | `JsonRecovery` | `_extract_json_anywhere`: whole-text parse, then the ```` ```json ```` fence, then the generic fence, then the brace-depth scan (the scan is a loop). |
| `content_engine.dfy` | `ContentEngine` | `make_blog_and_newsletters`: the fallback record, the `setdefault` fill, title parsing, the slug bound, and the persona loop over a logged language model. |
| `llm.dfy` | `Llm` | The `llm()` dispatch of both modules. The generator is a class with a call log. |
| `stable_sort.dfy` | `StableSort` | Python's stable `sorted(key=...)`, as used on timestamps. |
| `llm_summary.dfy` | `MetricsSummary` | `summarize_metrics`: the grouping loop, the comparison loop and at most one model call. |
| `hubspot_client.dfy` | `HubSpot` | The live client: settings, persona maps, the capability gate, and `_req`'s status check. Also `upsert_contact`, `search_contacts_by_persona`, `ensure_persona_list` and `single_send_marketing_email`. HTTP is a class holding the log of sent requests and a reply function. |
| `app_distribution.dfy` | `Distribution` | app.py's helpers: `norm` and the content-file filter, the missing-persona list, `build_props`, recipient parsing, and the newsletter id and send-log record. |
| `pipeline.dfy` | `Pipeline` | The generated content record, saved and read back, fed into `build_props`. |

**How the outside world is represented**
- Decoded JSON is the datatype `PyJson.Json`.
- Python exceptions on ill-shaped values are `Failure(PyError)`.
- Each of these is a parameter of the model:
  - `json.loads`;
  - `str()` of non-strings;
  - `float()` and `int()` of strings;
  - `slugify`;
  - the clock;
  - `random.randint`;
  - the reply of the model or of the HTTP server.

**Generator keys versus template keys**

The generator writes "subject_main" and "preview_text". `build_props` instead reads "subject", "preheader", "headline", "cta_url", "excerpt" and "cta_text".

`Pipeline.GeneratedContentProps` proves that each of those properties is the model's own value only when the model happened to emit that key, and the default otherwise. When no object is recovered, `Pipeline.NoObjectAllDefaults` shows that every default applies.

**Behaviour of the live code worth knowing**
- An unknown "persona" value is rewritten to "" rather than kept (hubspot_client.py:804); `HubSpot.PersonaRewrite` states it.
- In the live send, the first request whose status `_req` rejects raises out of the loop (hubspot_client.py:934-935): earlier sends stand, later addresses are never tried, and no simulated result is returned. `HubSpot.SendLoopStops` states it.
- `setdefault` fills only absent keys (content_engine.py:367-368), so a reply object that supplies `"body": null` keeps the null: a newsletter field is not always a string. `ContentEngine.SuppliedNullKept` states it.
- An empty reply yields the fallback record (content_engine.py:359-365), whose body is the empty reply itself. `ContentEngine.EmptyReplyEmptyBody` states it.

## Model

| member | source | states |
|---|---|---|
| JsonRecovery.FirstFence | content_engine.py:251 | the position found is the leftmost fence opener from the start point; none means there is no opener at or after it |
| JsonRecovery.FirstJsonLabel | content_engine.py:243 | the position found is the leftmost "```json" opener; none means there is no such opener |
| JsonRecovery.FirstRebalance | content_engine.py:262-269 | the returned length is the shortest non-empty prefix whose brace depth is zero; None means that no prefix up to the bound rebalances |
| JsonRecovery.DirectParseWins | content_engine.py:237-240 | a text that parses as a whole is returned as is, whatever JSON it is, and no later strategy is tried |
| JsonRecovery.LabelledFenceBeforeGeneric | content_engine.py:243-248 | when the whole text does not parse, a parsable ```json fence body wins over the generic fence |
| JsonRecovery.LabelledFenceFallsThrough | content_engine.py:243-256 | a ```json fence whose body fails to parse falls through to the generic fence |
| JsonRecovery.LabelledFenceRecovered | content_engine.py:237-248 | when the whole text does not parse, a first "```json" label, a whitespace run and a backtick-free body up to a closing "```" yield exactly the parse of the stripped body |
| JsonRecovery.GenericFenceRecovered | content_engine.py:237-256 | with no "```json" label anywhere and no whole-text parse, a first "```", a whitespace run and a backtick-free body up to a closing "```" yield exactly the parse of the stripped body |
| JsonRecovery.FirstCandidateDecides | content_engine.py:259-275 | once the scan is reached, the first balanced candidate decides; if it fails to parse the result is None, and no later `{` is tried |
| JsonRecovery.NoCandidate | content_engine.py:260-275 | without a `{`, or when the depth never returns to zero, the scan yields no candidate |
| JsonRecovery.PositiveBeforeRebalance | content_engine.py:262-269 | before the depth first returns to zero it stays positive |
| JsonRecovery.RebalancedPrefixBalanced | content_engine.py:262-269 | from an opening brace, the prefix up to the first rebalancing point is a balanced object |
| JsonRecovery.CandidateIsBalanced | content_engine.py:259-270 | the candidate starts at the first `{` of the stripped text and is balanced: as many `{` as `}`, and every proper prefix is deeper |
| JsonRecovery.BareObjectRecovered | content_engine.py:259-273 | with no whole-text parse and no fence, a `{`-free prefix, then a balanced object, then anything, yields exactly that object's parse |
| JsonRecovery.FirstRebalanceExtends | content_engine.py:263-269 | searching further does not change the first rebalancing point once one is found |
| JsonRecovery.ScanStep | content_engine.py:263-269 | one more character moves the depth by that character, and the first rebalancing point is this one exactly when the depth is back to zero |
| JsonRecovery.BalancedRebalances | content_engine.py:262-269 | a balanced object followed by anything first returns to depth zero at its own end |
| JsonRecovery.CandidateOfBareObject | content_engine.py:259-270 | after a `{`-free prefix, the scan's candidate is exactly the balanced object |
| JsonRecovery.ScanFirstBalanced | content_engine.py:259-274 | the depth-counting loop returns exactly the specified candidate |
| JsonRecovery.ExtractJsonAnywhere | content_engine.py:232-275 | the four strategies, in order, return exactly `Extracted(parse, text)` |
| Llm.ProviderNameAsWritten | content_engine.py:211 | the provider name is the setting, or "openai" when unset or empty, stripped and lower-cased |
| Llm.ProviderDispatch | llm_summary.py:70-73 | Gemini is used exactly when the trimmed, lower-cased LLM_PROVIDER is "gemini"; an unset or empty variable selects OpenAI |
| Llm.TextGenerator.constructor | content_engine.py:211 | the backend is fixed once from LLM_PROVIDER, and no call has been made yet |
| Llm.TextGenerator.Complete | content_engine.py:319-322 | one call is appended to the log and answered by the selected backend |
| ContentEngine.WithDefaults | content_engine.py:367-368 | every required key is present; existing values are never overwritten; only required keys are added, each as "" |
| ContentEngine.Newsletter | content_engine.py:358-369 | a recovered object keeps all of its fields and gains only missing required fields as ""; anything else gives the fallback record |
| ContentEngine.Titles | content_engine.py:376-381 | the title list is empty only when the reply parses to an empty JSON list |
| ContentEngine.TitlesOfReply | content_engine.py:376-381 | a reply that parses to a JSON list gives exactly that list; any other reply, unparsable or a JSON non-list, gives one title, the stripped reply |
| ContentEngine.Slug | content_engine.py:383 | the slug is a prefix of the slugified topic: the whole of it when it fits in 60 characters, otherwise exactly its first 60 |
| ContentEngine.NewslettersUpToValues | content_engine.py:355-369 | after n personas the map holds only persona keys, and under each of the first n keys the newsletter built from that persona's own reply: a later persona never overwrites an earlier one |
| ContentEngine.StoreNewsletter | content_engine.py:357-369 | the i-th step stores, under the i-th key, what the reply to the i-th persona call becomes |
| ContentEngine.ExpectedCalls | content_engine.py:340-357 | one blog call, then one call per persona so far |
| ContentEngine.ExpectedCallsStep | content_engine.py:355-357 | one more persona call extends the log by exactly that call |
| ContentEngine.NewsletterKeys | content_engine.py:349-369 | the newsletters map has exactly the keys founder, creative and ops, each built from its own reply |
| ContentEngine.EveryNewsletterComplete | content_engine.py:367-369 | every newsletter carries the five required fields, whatever the model replied |
| ContentEngine.FallbackWhenNoObject | content_engine.py:359-366 | without a recovered object: exactly the five keys, the raw reply as body, "{topic} - {key} edition" as main subject, and the fixed preview text |
| ContentEngine.FallbackRecord | content_engine.py:359-368 | a reply without a recovered object yields exactly the five required fields, with the raw reply as body and the fallback subject and preview |
| ContentEngine.TitlesOfProse | content_engine.py:376-381 | a reply that is not a JSON list becomes one title, a slice of the reply with only whitespace outside it |
| ContentEngine.TitlesOfUnpaddedProse | content_engine.py:376-381 | a reply that is not a JSON list and has no surrounding whitespace, such as "not json", is its own single title |
| ContentEngine.SuppliedNullKept | content_engine.py:357-368 | a reply parsing to an object whose "body" is null keeps the null body and gains the other four required fields as "" |
| ContentEngine.EmptyReplyEmptyBody | content_engine.py:358-365 | an empty reply yields no object, so the fallback record is used with an empty body and the "{topic} - {key} edition" subject |
| ContentEngine.FillRequired | content_engine.py:367-368 | the `setdefault` loop computes `WithDefaults` |
| ContentEngine.NewsletterOfReply | content_engine.py:358-369 | extraction, then the fallback record or the recovered object, then the `setdefault` fill, compute `Newsletter` of the reply |
| ContentEngine.PersonaNewsletterStep | content_engine.py:357-369 | one logged model call; the map gains, under the persona key, the newsletter made of its reply |
| ContentEngine.PersonaLoopBody | content_engine.py:355-369 | one iteration keeps both loop invariants: the log holds the calls so far and the map the newsletters so far |
| ContentEngine.PersonaNewsletters | content_engine.py:355-369 | the persona loop makes three logged calls in persona order and builds exactly `NewslettersUpTo` of their replies |
| ContentEngine.MakeBlogAndNewsletters | content_engine.py:325-395 | five logged calls in order (blog, three personas, titles); the record equals `ContentFor` of those replies |
| StableSort.Insert | llm_summary.py:108 | insertion adds one element and keeps the multiset |
| StableSort.SortBy | llm_summary.py:108 | sorting is a permutation: same length, same multiset |
| StableSort.InsertSorted | llm_summary.py:108 | inserting into a sorted list keeps it sorted |
| StableSort.InsertKeyFilter | llm_summary.py:108 | insertion appends the new element at the end of its key class |
| StableSort.SortByStable | llm_summary.py:108 | the result is sorted by key, and the elements of each key keep their input order |
| StableSort.SortTwo | llm_summary.py:108 | two elements with different keys come out in key order, whatever their input order |
| StableSort.LastIsNewest | llm_summary.py:108 | the last element has the greatest key, and of equal keys it came last in the input |
| MetricsSummary.AudiencesDistinct | llm_summary.py:87-95 | no audience is a grouping key twice |
| MetricsSummary.AudiencesExactly | llm_summary.py:87-95 | the grouping keys are exactly the audiences of the well-formed records |
| MetricsSummary.GroupMembers | llm_summary.py:87-95 | an audience's group holds only well-formed records of that audience, and no more records than were read |
| MetricsSummary.GroupingStep | llm_summary.py:87-95 | one more record adds its audience to the keys on first sight and itself to the end of its audience's group, and nothing else |
| MetricsSummary.Newest | llm_summary.py:108 | the window is the last min(6, n) records |
| MetricsSummary.ComparePair | llm_summary.py:113-131 | there is a line exactly when both compared records have open and click rates and the newest has an unsubscribe rate; it names the audience, reports the newest rates, and the deltas are (last - prev) * 100 |
| MetricsSummary.CompareSorted | llm_summary.py:109-113 | fewer than two sends give no line |
| MetricsSummary.NewestRates | llm_summary.py:113-119 | a line reports the open and unsubscribe rates of the last send of the history |
| MetricsSummary.LineOfLabelled | llm_summary.py:127-131 | every line names the audience it was computed for |
| MetricsSummary.RecapLinesStep | llm_summary.py:107-133 | each audience adds at most its own line |
| MetricsSummary.RecapLineSound | llm_summary.py:107-133 | every recap line is the line of one of the audiences |
| MetricsSummary.RecapLineComplete | llm_summary.py:107-133 | every audience with a line contributes it |
| MetricsSummary.RecapLinesOrdered | llm_summary.py:107-133 | recap lines appear in the first-appearance order of their audiences |
| MetricsSummary.WindowIrrelevant | llm_summary.py:108-113 | keeping only the newest six never changes the comparison |
| MetricsSummary.ComparedSendIsNewest | llm_summary.py:108-119 | the line reports the open and unsubscribe rates of the last send in stable timestamp order, which `StableSort.LastIsNewest` shows is the newest |
| MetricsSummary.TooFewSendsNoLine | llm_summary.py:109-111 | an audience with fewer than two valid sends has no recap line |
| MetricsSummary.NoAudiences | llm_summary.py:88-97 | there is no group exactly when no record is a dict with "audience" and "ts" |
| MetricsSummary.NoValidMetricsExactly | llm_summary.py:88-98 | "No valid metrics to summarize." is returned exactly when no record passes validation |
| MetricsSummary.AskExactlyWhenComparable | llm_summary.py:100-145 | the model is asked exactly when some audience is comparable, with header, recap lines and footer |
| MetricsSummary.SendFields | llm_summary.py:80-86 | a record with the documented fields is valid and yields its own rates |
| MetricsSummary.TwoSendsCompared | llm_summary.py:108-113 | two sends logged in either order are compared oldest to newest |
| MetricsSummary.RecapLinesSingle | llm_summary.py:107-133 | one audience gives exactly its own line, or none |
| MetricsSummary.OneAudience | llm_summary.py:87-95 | two valid records of one audience form a single group |
| MetricsSummary.FounderDeltas | llm_summary.py:124-125 | open 0.30 then 0.35 gives +5 pp; click 0.05 then 0.04 gives -1 pp |
| MetricsSummary.DeltaExample | llm_summary.py:100-145 | two founder sends logged newest first give one recap line with +5 and -1 pp between header and footer |
| MetricsSummary.SingleSendExample | llm_summary.py:106-139 | a single send gives the not-enough-history message and no model call |
| MetricsSummary.GroupByAudience | llm_summary.py:87-95 | the grouping loop builds exactly `Audiences` as key order and `Group` per key |
| MetricsSummary.AddRecord | llm_summary.py:88-95 | one iteration of the grouping loop keeps key order and groups equal to those of the records read so far |
| MetricsSummary.SkipInvalid | llm_summary.py:90-93 | a record that is not a dict, or lacks "audience" or "ts", changes neither the keys nor the groups |
| MetricsSummary.AppendToGroup | llm_summary.py:95 | a valid record of a known audience is appended to its group; the keys stay |
| MetricsSummary.StartGroup | llm_summary.py:87-95 | a valid record of a new audience starts its group and appends the audience to the keys |
| MetricsSummary.CompareNewest | llm_summary.py:108-131 | sort, window and compare give the specified line |
| MetricsSummary.CollectRecaps | llm_summary.py:100-133 | the loop's prompt is header plus recap lines, and its flag is set exactly when some line was added |
| MetricsSummary.SummarizeMetrics | llm_summary.py:78-145 | a fixed text involves no model call; otherwise exactly one call with the recap prompt and the insight instruction |
| HubSpot.Base | hubspot_client.py:652 | the API base is a prefix of HUBSPOT_API_BASE (default "https://api.hubapi.com"), every character removed from it is "/", and it never ends in "/" |
| HubSpot.CapabilityGate | hubspot_client.py:733-739 | `can_send` implies availability; in OAuth mode the client id and refresh token decide availability, otherwise the trimmed token does |
| HubSpot.DefaultModeName | hubspot_client.py:655 | the default mode name is not "oauth" |
| HubSpot.DefaultModeNeedsToken | hubspot_client.py:733-736 | with HUBSPOT_AUTH_MODE unset or empty, only the private token decides availability |
| HubSpot.PersonaMapsInverse | hubspot_client.py:667-672 | the two persona maps are inverse bijections between the three keys and the three values |
| HubSpot.CheckedStatus | hubspot_client.py:721-730 | `_req` raises exactly for status >= 300 with the JSON or the text as detail; otherwise it returns the JSON or an "ok" record with the text |
| HubSpot.Iterate | hubspot_client.py:860 | iterating a reply field succeeds exactly for a list, an empty string or an empty dict |
| HubSpot.PersonaRewrite | hubspot_client.py:802-806 | both persona keys disappear; "hs_persona" wins; an unknown key maps to ""; other properties are unchanged; the rewrite fails only for an unhashable persona |
| HubSpot.ContactReplyShape | hubspot_client.py:820-837 | an error status gives an "error" record with its code; a success keeps every field of the reply |
| HubSpot.ContactItem | hubspot_client.py:861-869 | a reshaped hit has exactly the keys id, email, firstname, lastname and persona |
| HubSpot.ContactItems | hubspot_client.py:859-870 | one item per hit, in order, or failure exactly when some hit fails |
| HubSpot.ItemPersona | hubspot_client.py:868 | the persona of a hit is the UI key of its stored value, or "" for an unknown value |
| HubSpot.SearchOutcome | hubspot_client.py:858-871 | a successful search has "count" equal to the number of results |
| HubSpot.FirstNamed | hubspot_client.py:886-888 | the result is the first list with the name, with all earlier entries dicts of other names; none means no entry has the name |
| HubSpot.EmailId | hubspot_client.py:925 | an all-digit email id is used as is; otherwise the parsed HUBSPOT_EMAIL_TEMPLATE_ID is returned exactly when it parses, with TypeError when unset and ValueError when unparsable |
| HubSpot.HubSpotApi.constructor | hubspot_client.py:652-661 | the client starts with its settings and no request sent |
| HubSpot.HubSpotApi.Exchange | hubspot_client.py:720 | one request is logged and answered |
| HubSpot.HubSpotApi.Req | hubspot_client.py:710-730 | one logged request, whose reply is checked by status |
| HubSpot.HubSpotApi.RewriteProperties | hubspot_client.py:802-806 | the pop/assign sequence computes `NormalisedProperties` |
| HubSpot.HubSpotApi.UpsertContact | hubspot_client.py:797-837 | without auth: no request and a "simulated" record with the email overlaid by the props; otherwise PATCH by email, then POST only on 404 |
| HubSpot.HubSpotApi.UpdateOrCreate | hubspot_client.py:811-837 | PATCH, then POST exactly when the PATCH answers 404; the last reply is reported |
| HubSpot.HubSpotApi.MapContacts | hubspot_client.py:859-870 | the reshaping loop computes `ContactItems` |
| HubSpot.HubSpotApi.SearchContactsByPersona | hubspot_client.py:839-871 | without auth: no request and one simulated hit; otherwise one search request and its reshaped reply |
| HubSpot.HubSpotApi.FindList | hubspot_client.py:886-888 | the early-return scan computes `FirstNamed` |
| HubSpot.HubSpotApi.ScanListsReply | hubspot_client.py:885-888 | the lists reply is checked and scanned as `ScanLists` says |
| HubSpot.HubSpotApi.EnsurePersonaList | hubspot_client.py:874-906 | without auth: the simulated list; otherwise the first list with the name (no create), or a create request; any exception gives the simulated list with a note |
| HubSpot.HubSpotApi.LiveList | hubspot_client.py:884-906 | the requests and outcome of the `try` block |
| HubSpot.HubSpotApi.CreateList | hubspot_client.py:890-899 | one logged create request, and the created-list record made of its checked reply |
| HubSpot.HubSpotApi.SendRequests | hubspot_client.py:928-934 | one request per address, in order, each carrying that address alone |
| HubSpot.HubSpotApi.SendRequestsStep | hubspot_client.py:928-934 | the log after one more request is the log of the requests for one more address |
| HubSpot.HubSpotApi.SendTo | hubspot_client.py:929-934 | one logged single-send request to one address, whose checked reply is the loop's reply for that position |
| HubSpot.HubSpotApi.SendEach | hubspot_client.py:927-935 | the loop's result is `SendLoop`, and its requests are those up to the first failure |
| HubSpot.HubSpotApi.SingleSendMarketingEmail | hubspot_client.py:909-936 | without `can_send`: no request and the "simulate" record; a bad email id raises before any request; otherwise one request per address until the first failure, and "send" with the results |
| HubSpot.SendAttempts | hubspot_client.py:928-935 | the send loop never issues more requests than there are addresses |
| HubSpot.SendLoopFails | hubspot_client.py:928-935 | a failing request ends the loop with its error after i + 1 requests |
| HubSpot.SendLoopFailurePersists | hubspot_client.py:934 | once a prefix has failed, the whole send fails the same way after the same number of requests |
| HubSpot.SendLoopComplete | hubspot_client.py:927-936 | a completed send has one entry per address, in order, each with its own reply |
| HubSpot.SendLoopStops | hubspot_client.py:928-935 | a failed send reports the first failing request's error, and every earlier request succeeded |
| HubSpot.ContactItemsFailurePersists | hubspot_client.py:860-870 | once a prefix of hits fails to reshape, the whole reply fails with the same error |
| HubSpot.ListOutcomeNames | hubspot_client.py:878-906 | every list outcome has the name "[Auto] Persona: key"; a simulated one has the id "sim-list-key" |
| Distribution.Norm | app.py:314-315 | same length, every backslash becomes "/", every other character kept, so no backslash is left |
| Distribution.NormIdempotent | app.py:314-315 | normalising twice is normalising once |
| Distribution.ContentFiles | app.py:318-323 | a path is kept exactly when it is listed and its normalised form ends in ".json", contains "/content/" and not "google_docs_index" |
| Distribution.ContentFilesAppend | app.py:318-323 | the filter distributes over concatenation, so listing order is kept |
| Distribution.ContentFilesIdempotent | app.py:318-323 | filtering twice is filtering once |
| Distribution.ContentFileNormalised | app.py:318-323 | a path passes exactly when its normalised form does |
| Distribution.MissingUpTo | app.py:356 | the missing personas are exactly the checked ones that are absent, in check order; empty exactly when all are present |
| Distribution.MissingPersonas | app.py:356 | as above for founder, creative and ops, with Python's `in` on dict, list or string; a truthy number or boolean raises TypeError |
| Distribution.NonePresentAllMissing | app.py:356 | when none of the checked personas is present, the missing list is all of them in check order |
| Distribution.NoNewslettersAllMissing | app.py:356 | a file without newsletters lacks all three, in order |
| Distribution.PropsJson | app.py:380-391 | the property dict carries the persona and the CTA URL |
| Distribution.NewsletterFor | app.py:371 | the persona's newsletter, or {} when it is absent; AttributeError when the newsletters or the newsletter is not a dict |
| Distribution.BlogBase | app.py:374 | BLOG_BASE_URL with all trailing "/" removed: a prefix without a trailing "/" |
| Distribution.PostUrl | app.py:377 | "{base}/{slug}" only when both are non-empty, otherwise the base |
| Distribution.CtaUrl | app.py:376-378 | the precedence is newsletter cta_url, doc_url, post URL, base, docs home; the result is never empty |
| Distribution.Head | app.py:384 | `[:200]` on a string or a list is a prefix of it: the whole value when it fits, otherwise exactly its first 200 characters or items; only strings and lists can be sliced |
| Distribution.Excerpt | app.py:384 | the newsletter's excerpt if truthy, else the head of a truthy blog, else "" |
| Distribution.BuildProps | app.py:370-391 | fails only in the newsletter lookup or the excerpt; otherwise each property is its newsletter field or its fallback |
| Distribution.PropsNeverBlank | app.py:384-389 | subject, preheader, body, CTA text and CTA URL are never empty; an excerpt from the blog is a prefix of at most 200 characters |
| Distribution.PostUrlJoin | app.py:374-377 | the post URL joins the trimmed base and the slug with exactly one "/" |
| Distribution.TypedAddressesSound | app.py:420 | every address is a stripped, non-blank piece, and every non-blank piece is kept |
| Distribution.Recipients | app.py:420 | never empty, no empty address, no comma except in the default; the typed addresses if any, else "{key}@example.com" |
| Distribution.TypedRecipientsKept | app.py:420 | every non-blank typed piece becomes a recipient |
| Distribution.BlankBoxDefault | app.py:420 | a blank box sends to the persona's placeholder address |
| Distribution.NewsletterId | app.py:436 | the id is as long as slug, "-" and persona together |
| Distribution.NewsletterIdSplits | app.py:436 | splitting the id at its last "-" gives back the slug and the persona |
| Distribution.SendLogRecord | app.py:431-438 | the log record names the audience, the newsletter id and the HubSpot result |
| Pipeline.ContentJson | content_engine.py:386-395 | the saved file holds each newsletter under its persona key, plus the doc URL if one was added |
| Pipeline.UnfilledKeysAreEmitted | content_engine.py:359-369 | a key the generator does not fill is present in a newsletter exactly when the model emitted it |
| Pipeline.ReadKeysEmitted | content_engine.py:359-369 | subject, preheader, headline, cta_text and cta_url come only from the model |
| Pipeline.SavedNoneMissing | app.py:356 | a record holding all three newsletters has none missing |
| Pipeline.SavedProps | app.py:371-384 | the props of a saved persona read its newsletter and can always be built |
| Pipeline.SavedPropsRead | app.py:370-391 | the read properties follow the newsletter's keys or their defaults |
| Pipeline.SavedCtaDefault | app.py:376-378 | without a newsletter CTA: the doc URL, then the post URL, then the base, then the docs home |
| Pipeline.SavedBody | app.py:388 | the body is the newsletter body, or the default when that is empty |
| Pipeline.SavedFallbackProps | app.py:370-391 | a fallback newsletter gets every default property |
| Pipeline.GeneratedNoneMissing | app.py:356 | a generated content file, saved and read back, has no persona missing |
| Pipeline.GeneratedContentProps | app.py:370-391 | for generated content nothing is missing, props always build, and subject, preheader, headline, CTA text and CTA URL are the model's own keys or the defaults |
| Pipeline.NoObjectAllDefaults | app.py:370-391 | with no recovered object, every default applies, the reply is the body, and the CTA follows the doc, post, base, docs chain |

## Left out
- The prompt prose. Requests are the `Request` datatype, or lines with their numbers. Number formatting (`:.1f`, `:+.1f`, `:.2f`) and IEEE float behaviour are left out: rates are reals.
- The model's replies, including the "[FAKE AI OUTPUT]" placeholders. Each reply is an arbitrary function of the call index, the prompt and the system text.
- `json.loads`, `slugify`, `str()` of non-strings, and `float()`/`int()` of strings are parameters, not re-implemented.
- The regular expressions. They are modelled as first-occurrence fence searches.
- Python dict insertion order. Objects are maps.
- `lower()`, `isdigit()` and `strip()` cover the characters the core meets. `lower()` and `isdigit()` cover ASCII only. `strip()` covers Python's whitespace code points.
- HTTP headers, the OAuth token exchange, timeouts and `print`. Also these functions: `_find_contact_id_by_email`, `ensure_persona_property`, `init_crm` and `log_send_event`.
- The text of exception messages. It is the parameter `describe`.
- `random.randint` is the `Nonce` argument. `time.time()` is the `now` argument.
- storage.py, google_docs_client.py, simulate_metrics.py and run_campaign.py. Also the Streamlit widgets, the automatic Google Doc creation, and the per-address upsert and send loops of app.py. These are file, network and UI work.
- MetricsSummary.SummarizeMetrics: requires numeric timestamps on valid records. The function's docstring documents "ts" as int/float (llm_summary.py:81), and every writer of the metrics and send logs stores `int(time.time())` (app.py:432, app.py:454, simulate_metrics.py:21). The requires therefore also excludes inputs Python would sort without raising, such as all-string timestamps or a lone null in a one-record group; mixed types would raise inside `sorted`. Comparing strings is not modelled.
- MetricsSummary: JSON `null` and a missing field both count as absent.
- HubSpot.Iterate: iterating a non-empty dict or string and calling `.get` on each element is reported as AttributeError. The element-by-element behaviour is not modelled.
- Distribution.Head: a dict blog is reported as TypeError. That is the error Python before 3.12 raises; 3.12 raises KeyError.
- Pipeline.ContentJson: the JSON round trip through the file is taken to be the identity.
