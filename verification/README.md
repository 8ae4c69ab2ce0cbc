# A verified model of the Klaviyo Python SDK core

This project models the core of the `klaviyo` Python package, a client for Klaviyo's marketing API, and proves properties of it. The model has six parts:

- **Dispatch layer (`KlaviyoAPI`).** This is where every private call ends up.
  - The constructor insists on at least one token.
  - Parameter maps lose their `None` entries, and a pagination marker is sent only when it is truthy.
  - URLs are assembled for the v1, v2 and public endpoints. `api_key` is written into the caller's dictionary in place.
  - The per-call token check runs before any transport call.
  - The status-code table and the success-path fallback decide what a call returns or raises.
- **Resource builders** (`Lists`, `Metrics`, `Profiles`, `Campaigns`, `DataPrivacy`). Each maps its arguments to an `ApiCall`: the API version, the verb, the resource path and the parameter map. Each builder is checked against an independent table of the vendor's endpoints (`Routes.Route`). A builder given a slash-free id addresses exactly the resource it names.
- **Public tracking client (`Public`).** It validates identifiers, writes `email`/`id` into the caller's dictionaries and builds the `track`/`identify` payloads around the public token. `track_once` adds the `__track_once__` marker.
- **Legacy `Klaviyo` client** of the package's top-level module. Its identifier check is looser, `ip` is always present, and the result is "the body was `1`".
- **Exception hierarchy.** This covers subclassing as seen by `except` clauses, the message of an API exception (the parsed JSON body when there is one, the raw text otherwise) and its text.
- **Django snippet middleware.** It splices the tracking script in before the first `</body` and rewrites `Content-Length`.

**Modelling choices**
- Dictionaries that the SDK changes and whose owner sees the change are objects of class `PyValues.Dict`. The methods that write into them (`V1Request`, `V2Request`, `Public.Track`, `Legacy.Identify`, …) are Dafny methods with `modifies` clauses. Dictionaries created inside a call are plain maps.
- A client's fields are set once by its constructor, so a client is a value.
- The HTTP transport is not modelled. A call takes the response the transport would return as an input.
- A call's result is a `Dispatch`. It records the request handed to the transport, if any, and what the call returns or raises.

Python's `str.format` with one positional argument, `str.find`, `sep.join`/`split` and `str()` of a natural number are modelled in `Text`. Each comes with the inverse that states what its result means.

## Model

| member | source | states |
|---|---|---|
| ApiHelper.NewClient | klaviyo/api_helper.py:70-77 | construction fails with a configuration error exactly when both tokens are falsy; otherwise the client holds the given tokens and server |
| ApiHelper.FilterParams | klaviyo/api_helper.py:96-106 | a key survives exactly when its value is not `None`, with its value unchanged (so `0` and `''` are kept) |
| ApiHelper.FilterParamsIdempotent | klaviyo/api_helper.py:106 | filtering twice is filtering once |
| ApiHelper.FilterParamsKeepsNoneFree | klaviyo/api_helper.py:106 | a map with no `None` value comes back unchanged |
| ApiHelper.TimelineParams | klaviyo/metrics.py:49-55 | the filtered count/sort/since map: each key is sent exactly when its argument is not `None`, as that argument, and nothing else is sent |
| ApiHelper.MarkerParam | klaviyo/api_helper.py:108-120 | `marker` is the only possible key, present exactly when the marker is truthy (so marker `0` gives `{}`), and then holds the marker |
| ApiHelper.BuildQueryString | klaviyo/api_helper.py:122-126 | the query carries the payload as its data and a test flag that is 0 or 1, 1 exactly when the call is a test |
| ApiHelper.ApiUrlSegments | klaviyo/api_helper.py:157-161 | a private URL splits at `/` into the server's segments, then the version, then the resource path's segments |
| ApiHelper.IsValidRequestOption | klaviyo/api_helper.py:131-144 | fails exactly when the request type's token is falsy, with the message naming that token; the default type is private |
| ApiHelper.ConstructedClientIsUsable | klaviyo/api_helper.py:70-77 | every client the constructor accepts passes the token check for at least one request type |
| ApiHelper.Request | klaviyo/api_helper.py:203-226 | no request reaches the transport unless the token check passes, in which case the outcome is the classified response; otherwise the check's error is raised. Models the intended success path of the first Findings row |
| ApiHelper.MissingTokenMeansNoTransport | klaviyo/api_helper.py:214-224 | with a missing token nothing is sent, the outcome does not depend on the server's answer, and the error is a `KlaviyoException` and not an API error |
| ApiHelper.PublicRequest | klaviyo/api_helper.py:190-201 | a GET of `server/path` with the query string and no params or body, sent exactly when the public token is truthy |
| ApiHelper.V1Request | klaviyo/api_helper.py:169-188 | the caller's dictionary gains `api_key` = private token, all else unchanged; it is sent as query parameters to `server/v1/path` |
| ApiHelper.V2Request | klaviyo/api_helper.py:146-167 | the caller's dictionary gains `api_key` = private token, all else unchanged; it is sent as the JSON body to `server/v2/path` |
| ApiHelper.Execute | klaviyo/api_helper.py:146-188 | a built call's dictionary is handed to the v1 or v2 request by the call's API version, ending with `api_key` added |
| ApiHelper.HandleSuccessfulResponseAsWritten | klaviyo/api_helper.py:256-277 | as written: the JSON body, else the text `''`/`'0'`/`'1'`, else a `TypeError` from the constructor call with an unknown `message` keyword |
| ApiHelper.NonJsonSuccessAsWrittenEscapesApiHandler | klaviyo/api_helper.py:273-277 | as written, a 200 with an HTML body raises a `TypeError` that `except KlaviyoAPIException` does not catch |
| ApiHelper.HandleSuccessfulResponse | klaviyo/api_helper.py:256-277 | as intended: the JSON body, else the text `''`/`'0'`/`'1'`, else an API exception carrying the status code and response |
| ApiHelper.HandleSuccessfulResponseCorrection | klaviyo/api_helper.py:266-277 | the correction changes only what the last branch raises, and what it raises is a `KlaviyoAPIException` |
| ApiHelper.HandleResponse | klaviyo/api_helper.py:228-254 | 403 → authentication error, 429 → rate-limit error, 500/503 → server error, any other non-200/202 → generic API error, 200/202 → the success path. Models the intended success path of the first Findings row: an unusable body raises an API exception, where the code as written raises `TypeError` |
| ApiHelper.ResponseClassification | klaviyo/api_helper.py:244-254 | through `except` clauses: each subclass is raised for exactly its codes; a `KlaviyoAPIException` is raised exactly for non-200/202 codes or an unusable body, and nothing else is raised; a success keeps the status code. This is the intended behaviour of the first Findings row; as written, an unusable body raises a `TypeError` instead |
| ApiHelper.TextFallbackOnlyForEmptyBody | klaviyo/api_helper.py:266-271 | with a parser that reads `0` and `1` as numbers, the text fallback can only return the empty body, and `'1'` comes back as the number 1 |
| Exceptions.ProcessMessage | klaviyo/exceptions.py:21-35 | an API exception's message is the parsed JSON exactly when the body parses, the raw text otherwise |
| ApiHelper.ApiErrorMessage | klaviyo/exceptions.py:21-35 | every API exception a call raises carries the message read from the response it failed on; for a 200/202 that message is always the raw text |
| Exceptions.Str | klaviyo/exceptions.py:4-19 | a `KlaviyoException` shows its message; an API exception's text starts with `Failed with status code: ` |
| Exceptions.StatusCodeInText | klaviyo/exceptions.py:16 | the status code can be read back from an API exception's text |
| Exceptions.ApiExceptionSubclasses | klaviyo/exceptions.py:38-47 | `except KlaviyoAPIException` catches exactly the API exception and its authentication, rate-limit and server subclasses |
| Exceptions.KlaviyoExceptionSubclasses | klaviyo/exceptions.py:4-11 | `except KlaviyoException` catches exactly `KlaviyoException` and the configuration error |
| Exceptions.HierarchyIsDisjoint | klaviyo/exceptions.py:4-47 | no exception is both a `KlaviyoException` and a `KlaviyoAPIException`; configuration errors are the former and API errors the latter |
| Routes.PathSegments | klaviyo/api_helper.py:157-161 | joining slash-free segments with `/` and splitting again gives the segments back |
| Lists.GetLists | klaviyo/lists.py:13-18 | v2 GET `lists` with no data, addressing the list index |
| Lists.CreateList | klaviyo/lists.py:20-33 | v2 POST `lists` with exactly `{list_name}` |
| Lists.ListPath | klaviyo/lists.py:45 | `list/<id>`, the path of that one list |
| Lists.GetListById | klaviyo/lists.py:35-45 | v2 GET `list/<id>` with no data, addressing that list |
| Lists.UpdateListNameById | klaviyo/lists.py:47-66 | v2 PUT `list/<id>` with exactly `{list_name}` |
| Lists.DeleteList | klaviyo/lists.py:68-82 | v2 DELETE `list/<id>` with no data |
| Lists.ListSectionPath | klaviyo/lists.py:103 | `list/<id>/subscribe` or `list/<id>/members`, addressing that list's subscriptions or membership |
| Lists.AddSubscribersToList | klaviyo/lists.py:84-103 | v2 POST `list/<id>/subscribe` with exactly `{profiles}` |
| Lists.GetSubscribersFromList | klaviyo/lists.py:105-121 | v2 GET `list/<id>/subscribe` with exactly `{emails}` |
| Lists.DeleteSubscribersFromList | klaviyo/lists.py:123-139 | v2 DELETE `list/<id>/subscribe` with exactly `{emails}` |
| Lists.AddMembersToList | klaviyo/lists.py:141-160 | v2 POST `list/<id>/members` with exactly `{profiles}` |
| Lists.GetMembersFromList | klaviyo/lists.py:162-178 | v2 GET `list/<id>/members` with exactly `{emails}` |
| Lists.RemoveMembersFromList | klaviyo/lists.py:180-196 | v2 DELETE `list/<id>/members` with exactly `{emails}` |
| Lists.GetListExclusions | klaviyo/lists.py:198-212 | v2 GET `list/<id>/exclusions/all` whose parameters are the marker map |
| Lists.GetAllMembers | klaviyo/lists.py:214-228 | v2 GET `group/<id>/members/all` whose parameters are the marker map |
| Lists.GetMembersFromSegment | klaviyo/lists.py:230-250 | v1 GET `segment/<id>/members` whose one parameter `email` splits at commas back into the emails when none holds a comma |
| Lists.UnescapedIdsCollide | klaviyo/lists.py:45 | because ids are not escaped, for every id, fetching list `<id>/exclusions/all` is the same call as fetching list `<id>`'s exclusions |
| Metrics.GetMetrics | klaviyo/metrics.py:18-34 | v1 GET `metrics` with `page` and `count` sent unfiltered |
| Metrics.GetMetricsTimeline | klaviyo/metrics.py:36-58 | v1 GET `metrics/timeline`; each of count/sort/since is sent exactly when it is not `None`, and nothing else is sent |
| Metrics.MetricPath | klaviyo/metrics.py:80 | `metric/<id>/timeline` or `metric/<id>/export`, addressing that metric's timeline or export |
| Metrics.GetMetricTimelineById | klaviyo/metrics.py:60-82 | v1 GET `metric/<id>/timeline` with the same filtered count/sort/since |
| Metrics.GetMetricExport | klaviyo/metrics.py:84-125 | v1 GET `metric/<id>/export`; `metric_id` is always sent, each of the other seven exactly when it is not `None`, and nothing else is sent |
| Metrics.DefaultTimeline | klaviyo/metrics.py:14-16 | with its defaults a timeline sends exactly count 100 and sort `desc`, the same for every metric |
| Metrics.DefaultExport | klaviyo/metrics.py:84-125 | an export given only the metric id sends only the metric id |
| Profiles.PersonPath | klaviyo/profiles.py:16 | `person/<id>`, the path of that profile |
| Profiles.GetProfile | klaviyo/profiles.py:7-16 | v1 GET `person/<id>` with no data |
| Profiles.UpdateProfile | klaviyo/profiles.py:18-28 | v1 PUT `person/<id>` with the properties passed through as the parameters |
| Profiles.UpdateProfileCall | klaviyo/profiles.py:28 | the caller's properties dictionary itself receives `api_key`, and it is what is sent |
| Profiles.GetProfileMetricsTimeline | klaviyo/profiles.py:30-57 | v1 GET `person/<id>/metrics/timeline`; each of count/sort/since is sent exactly when it is not `None` |
| Profiles.GetProfileMetricsTimelineById | klaviyo/profiles.py:59-88 | v1 GET `person/<pid>/metric/<mid>/timeline` with the same filtered parameters, addressing that person's metric |
| Profiles.PersonTimelinesDiffer | klaviyo/profiles.py:49-88 | a profile, its timeline and its per-metric timeline address different resources for slash-free ids |
| Campaigns.GetCampaigns | klaviyo/campaigns.py:11-31 | v1 GET `campaigns` with `{page, count}`, defaults 0 and 50 |
| Campaigns.GetCampaignRecipients | klaviyo/campaigns.py:33-56 | v1 GET `campaign/<id>/recipients` with count, sort and offset all sent, defaults 5000, `asc` and `''` |
| Campaigns.RecipientsAreNotFiltered | klaviyo/campaigns.py:50-56 | the default empty offset is in the parameters handed to the transport, and so is a `None` offset, which the timeline calls' filter would have dropped |
| DataPrivacy.DeletionPath | klaviyo/data_privacy.py:35 | `data-privacy/deletion-request`, the deletion endpoint |
| DataPrivacy.RequestProfileDeletion | klaviyo/data_privacy.py:13-35 | fails with `KlaviyoException` exactly when the id type is not email, phone_number or person_id; otherwise one v2 POST with the body `{id_type: identifier}` |
| DataPrivacy.InvalidIdTypeIsNotAnApiError | klaviyo/data_privacy.py:26-29 | a bad id type is caught by `except KlaviyoException` and not by the `KlaviyoAPIException` the docstring names |
| Public.ValidIdentifiers | klaviyo/public.py:132-143 | fails with the identify-a-user message exactly when both email and external id are falsy |
| Public.IdentityFields | klaviyo/public.py:49-53 | a truthy email sets `email`, a truthy external id sets `id`, and every other entry is kept |
| Public.TrackPayload | klaviyo/public.py:55-64 | exactly token, event, properties, customer_properties and time, plus `ip` exactly when the address is truthy |
| Public.TrackDispatch | klaviyo/public.py:41-67 | a track call is sent exactly when the identifiers and the public token pass, as a GET to `server/track` carrying the payload with the identity fields; failing identifiers raise `KlaviyoException`, and a falsy public token then raises the configuration error |
| Public.TrackIdentifiesCustomer | klaviyo/public.py:41-67 | every track request sent carries the public token and a customer named by a truthy email or id |
| Public.Track | klaviyo/public.py:13-67 | the caller's customer_properties gain the identity fields only when validation passes; the call is `TrackDispatch` of the arguments |
| Public.TrackOnce | klaviyo/public.py:69-100 | the caller's properties gain `__track_once__ = True` even when validation fails; the caller's customer_properties gain the identity fields only when validation passes, and carry the mark too when both arguments are one dictionary; the call is `TrackDispatch` with the marked properties |
| Public.IdentifyFieldsAsWritten | klaviyo/public.py:121-122 | as written: `id` is always set to external_id, `None` included |
| Public.IdentifyAsWrittenClobbersId | klaviyo/public.py:122 | as written, identifying by email alone replaces the caller's `id` with `None`; the intended test keeps it |
| Public.IdentifySharedDefaultAsWritten | klaviyo/public.py:102-130 | as written, an omitted `properties` is one shared dictionary that each accepted call updates and sends |
| Public.SharedDefaultLeaksAcrossCalls | klaviyo/public.py:102-122 | as written, one customer's email is sent with the next customer's id |
| Public.IdentifyDispatch | klaviyo/public.py:116-130 | an identify call is sent exactly when the identifiers and the public token pass, carrying exactly the token and the properties with the identity fields; failing identifiers raise `KlaviyoException`, and a falsy public token then raises the configuration error. Models the intended `external_id` test of the second Findings row and the fresh default of the third |
| Public.OmittedPropertiesAreFresh | klaviyo/public.py:102-122 | with a fresh default, an identify without properties sends exactly its own truthy identifiers |
| Public.Identify | klaviyo/public.py:102-130 | a given dictionary gains the identity fields only when validation passes; the call is `IdentifyDispatch` of the arguments. Models the intended behaviour of the second and third Findings rows |
| Legacy.NewLegacyClient | klaviyo/__init__.py:19-21 | the client holds the token and server, default `a.klaviyo.com`, with no check |
| Legacy.LegacyValidIdentifiers | klaviyo/__init__.py:26-27 | fails exactly when email and id are both `None` |
| Legacy.LegacyRequest | klaviyo/__init__.py:81-85 | a GET of `http://server/path?params` whose result is true exactly when the body is `1` |
| Legacy.LegacyTrackPayload | klaviyo/__init__.py:38-45 | exactly token, event, properties, customer_properties, time and ip, with `ip` `''` when the address is falsy |
| Legacy.LegacyTrackDispatch | klaviyo/__init__.py:23-46 | sent exactly when email or id is not `None`, to `http://server/api/track` with the legacy payload |
| Legacy.LegacyIdentifyDispatch | klaviyo/__init__.py:59-73 | sent exactly when email or id is not `None`, to `http://server/api/identify` with exactly token and properties |
| Legacy.LegacyAcceptsUnidentifiedCustomer | klaviyo/__init__.py:26-45 | an empty email with no id is refused by the current client but sent by the legacy one, naming nobody |
| Legacy.LegacyCheckIsWeaker | klaviyo/__init__.py:26-27 | every pair of identifiers the current client accepts, the legacy one accepts |
| Legacy.Track | klaviyo/__init__.py:23-46 | the caller's customer_properties gain the truthy identifiers only when the check passes; the call is `LegacyTrackDispatch` |
| Legacy.TrackOnce | klaviyo/__init__.py:48-57 | the caller's properties gain `__track_once__ = True`, and the timestamp is dropped, so `time` is `None`; the caller's customer_properties gain the truthy identifiers only when the check passes, and carry the mark too when both arguments are one dictionary |
| Legacy.Identify | klaviyo/__init__.py:59-73 | the caller's properties gain the truthy identifiers only when the check passes; the call is `LegacyIdentifyDispatch` |
| Middleware.TrackableResponseNeedsHtml | klaviyo/middleware.py:3-7 | a response is trackable exactly when the request is not AJAX and a Content-Type header mentions `text/html`; a missing header counts as `''` |
| Middleware.RenderScriptAsWrittenAlwaysFails | klaviyo/middleware.py:9-19 | as written, formatting the snippet raises `KeyError` for every token |
| Middleware.RenderScript | klaviyo/middleware.py:9-19 | the intended snippet: the fixed head, then the token as the account, then the script verbatim |
| Middleware.EscapedTemplateRendersScript | klaviyo/middleware.py:9-19 | the template with the script's braces doubled formats into the intended snippet for every token |
| Middleware.InsertBeforeBodyClose | klaviyo/middleware.py:30-33 | none exactly when the page has no `</body`; otherwise the page up to its first `</body`, the script, then the rest |
| Middleware.SnippetPrecedesFirstBodyClose | klaviyo/middleware.py:29-34 | the first `</body` directly follows the snippet, none occurs earlier, and removing the snippet gives the page back |
| Middleware.ProcessResponse | klaviyo/middleware.py:23-36 | no token, an untrackable response or no `</body` leaves the response untouched; otherwise the snippet is spliced in and Content-Length is the new length, in decimal. Models the intended `render_script` of the fourth Findings row; as written, that case raises `KeyError` |
| Text.SplitJoin | klaviyo/lists.py:247 | splitting a comma- or slash-join of separator-free parts gives the parts back |
| Text.ParseNatToString | klaviyo/middleware.py:34 | the decimal text of a length parses back to that length |
| Text.FormatOneField | klaviyo/middleware.py:9-19 | brace-free text, one `{}` and escaped text format into the text with the argument in place |
| Text.FormatNamedFieldFails | klaviyo/middleware.py:9-19 | a `{` opening a named field after the `{}` makes formatting raise `KeyError` |

## Left out

- The HTTP transport (`requests`, and `urllib` in the legacy client) is not modelled. A call takes the response as an input, and the request it would send is recorded.
- JSON serialisation and parsing, base64 and urlencode are library codecs. A query string keeps the value to be serialised. A response carries what its JSON parse yields (`None` when the parse fails). No codec round-trip is stated.
- The `Content-Type` and `User-Agent` headers that `_request` adds are not modelled. The version string comes from a module that is not part of this model.
- The datetime branch of `_normalize_timestamp` is left out: `time.mktime` depends on the time zone and returns a float. Timestamps pass through unchanged, which is the non-datetime behaviour.
- ApiHelper.HandleSuccessfulResponseAsWritten: the `TypeError` message is the wording of Python before 3.10. Later versions prefix the qualified name of `__init__`, so only the class of the error is version-independent.
- `klaviyo/api.py` (attribute forwarding to the resource classes) and `klaviyo/segments.py` (its one method calls `_v2_request` without arguments) are not part of this model.
- The Django settings lookup and `request.is_ajax()` are inputs: an optional token and a flag.
- Django's case-insensitive header names are not modelled; the header names are matched exactly.
- The Python 3 distinction between bytes and text in `response.content` is not modelled; content is a string.
- The order of dictionary entries is not modelled; dictionaries are maps.
- The shared `data={}` and `params={}` defaults of `_v2_request`/`_v1_request` only ever receive `api_key`, and every call overwrites `api_key` before sending, so what a call sends never depends on an earlier call. They are modelled as fresh dictionaries.
- The shared `properties={}` default of `update_profile` is modelled the same way: when the default is used, nothing but `api_key` is written into it.
- Text.Format: only `{{`, `}}` and `{}` are interpreted. Any other `{` is a missing keyword field (`KeyError`), even when the field is not closed, although Python would raise `ValueError` for an unclosed field. Numbered fields, conversions and format specs are not modelled. The snippet template's field is closed, so its `KeyError` is what Python raises.
- `customer_properties` and the legacy `properties` that are not dictionaries are not modelled. The SDK does not check them and would fail on the item assignment.
- A non-dictionary `properties` given to `identify` is replaced by a fresh dictionary that the caller never sees. The model folds this case into the omitted one (`Public.PropsArg`).
- The legacy `_build_params` is Python 2 code (`urllib.urlencode`, `b64encode` of a text string). It produces the same `data`/`test` query as `_build_query_string`, so it is modelled by `ApiHelper.BuildQueryString`.

## Observations about the code

The as-written members follow the code. Where a Findings row applies, the rest of the model uses its corrected member, and the rows above say so.
- Resource ids are formatted into the path unescaped. An id containing `/` makes one call address another endpoint (`Lists.UnescapedIdsCollide`). Every builder's routing guarantee therefore holds only for a slash-free id (`Routes.Segment`).
- The v1 calls hand their dictionary to the transport as query parameters for every verb, PUT and POST included, as `_v1_request`'s docstring says at klaviyo/api_helper.py:175 (`ApiHelper.V1Request`).
- The success path's last branch was evidently meant to raise `KlaviyoAPIException`, but the call raises a `TypeError` (Findings, first row).
- `identify`'s default `properties` dictionary is one object shared by every call that omits it (Findings, third row).
- `_public_request` documents its result as `1` or `0` (klaviyo/api_helper.py:197). A JSON parser reads both as numbers, so the success path's text fallback only ever returns the empty body (`ApiHelper.TextFallbackOnlyForEmptyBody`).

## Findings

| source | as written | input that shows it | evidently intended | confidence | as-written member | corrected member |
|---|---|---|---|---|---|---|
| klaviyo/api_helper.py:273-277 | `KlaviyoAPIException(message=..., status_code=..., response=...)`, whose constructor takes no `message` | a 200 response with body `<html>` | raise `KlaviyoAPIException(status_code, response)` | high; not executed | ApiHelper.NonJsonSuccessAsWrittenEscapesApiHandler | ApiHelper.HandleSuccessfulResponseCorrection |
| klaviyo/public.py:122 | `if id:` tests Python's builtin `id`, which is always truthy | `identify(email='a@b.c', properties={'id': 'abc'})` sends `id: None` | `if external_id:` | high; not executed | Public.IdentifyAsWrittenClobbersId | Public.IdentityFields |
| klaviyo/public.py:102 | the default `properties={}` is one dictionary, written to at lines 121-122 on every call | `identify(email='a@x.com')` then `identify(external_id='b')` sends `a@x.com` with `b` | a fresh dictionary per call | high; not executed | Public.SharedDefaultLeaksAcrossCalls | Public.OmittedPropertiesAreFresh |
| klaviyo/middleware.py:9-19 | the template's JavaScript function body keeps single `{`/`}`, so `str.format` reads it as a named field | `render_script('abc')` raises `KeyError` | the script's braces doubled | high; not executed | Middleware.RenderScriptAsWrittenAlwaysFails | Middleware.EscapedTemplateRendersScript |
