# spectrum-client, modelled in Dafny

A model of the `Spectrum` client for the CA Spectrum OneClick REST API
(`spectrum_client/spectrum.py`). The model covers everything the client does around its HTTP calls:

- It normalises the server url when the client is created.
- It writes model handles and attribute ids as Python `hex()` text, and integer values as `str()` text.
- It builds the requests: the attribute read, the attribute update, the model search and the event post.
  For searches, it builds the XML filter: one criterion per `(attribute, operation, value)` triple, plus
  the landscape bounds and the Device filter.
- It classifies responses. First the HTTP status check (401 versus any other 4xx/5xx). Then the error
  markers a read inspects, in their fixed order. Then the outcome of an update.
- It turns a search response into a map from model handle to attribute id to attribute text.

The HTTP exchange is a parameter, `send: Request -> Response`. A `Response` is a status code plus the
already-parsed XML document, modelled as an element tree. Nothing else in the client is left to the
environment.

Files:

- `wrappers.dfy`: `Option` and `Result`.
- `numerals.dfy`: Python's `hex(n)` and `str(n)` for integers, each with a reader. Proved: the text reads
  back as the same integer, and `hex` is injective.
- `etree.dfy`: the element tree and the three ElementTree queries the client uses: `get`,
  `find(".//tag")` and `findall(".//tag")` (descendants in document order, the element itself excluded).
- `filters.dfy`: the search criteria, their XML text, and a reader for that text. The reader is the
  partner of the writer: plain criteria read back exactly. A value containing `<` never reads back,
  which shows that the client escapes nothing.
- `spectrum.dfy`: the errors, the id and value texts, the read markers, the search-result map, the
  criteria of a search, and the class `Spectrum`, whose methods and functions are the client's
  operations. The properties follow the class.

Where the code and the documentation of the client disagree, the model follows the code:

- `get_attribute` returns the first `model` element itself, not its text. Its `attribute` and
  `attribute-list` fallbacks are never reached (see Findings).
- Landscape `0x10000` is bounded above by `hex(0x10000 + 0xfffff)`, which is `"0x10ffff"`.
- The Device filter's value `0x1004b` goes through `str()` and is written as `"65611"`. Its attribute id
  goes through `hex()` and is written as `"0x10001"`.
- Inside `<and>`, the landscape bounds come first, then the Device filter, then the caller's filters.
- `devices_by_filters` given a bare triple raises `TypeError`, because a list and a tuple cannot be
  concatenated. Only `_build_filter` and `update_attributes` wrap a bare item into a list.
- An empty list given to `update_attributes` or `models_by_filters` raises `IndexError`.
- In `_parse_update`, a missing element raises `AttributeError`, and the raised message may be `None`.
- An empty url is accepted: only `None` is rejected.

## Model

| member | source | states |
|---|---|---|
| SpectrumClient.Spectrum.Connect | spectrum_client/spectrum.py:92-95 | no url raises ValueError with the client's message; otherwise a new client whose url is the given one with a trailing "/" stripped |
| SpectrumClient.Spectrum.constructor | spectrum_client/spectrum.py:95-96 | the stored url is the given url normalised; the credentials are kept as given |
| SpectrumClient.StripTrailingSlash | spectrum_client/spectrum.py:95 | a url ending in "/" loses exactly that one character (result + "/" is the url); any other url is unchanged |
| Numerals.Hex | spectrum_client/spectrum.py:203-206 | `hex(n)`: "0x" then lowercase hex digits without a leading zero, "-0x" for negatives, exactly "0x0" for zero |
| Numerals.HexRoundTrip | spectrum_client/spectrum.py:203-206 | reading `hex(n)` back gives n for every integer |
| Numerals.HexInjective | spectrum_client/spectrum.py:281-282 | two handles get the same text exactly when they are the same integer |
| Numerals.Decimal | spectrum_client/spectrum.py:153-158 | `str(n)`: decimal digits without a leading zero, "-" before the digits for negatives, exactly "0" for zero |
| Numerals.DecimalRoundTrip | spectrum_client/spectrum.py:153-158 | reading `str(n)` back gives n for every integer |
| Numerals.Digits | spectrum_client/spectrum.py:193-194 | the digits of n are non-empty, all digits of the base, and start with '0' exactly when n is 0 |
| Numerals.ValueOfDigits | spectrum_client/spectrum.py:193-194 | the digits of n in any base read back as n |
| SpectrumClient.IdText | spectrum_client/spectrum.py:149 | an int id goes out as its `hex` text, which reads back as the same integer; a string id goes out unchanged |
| SpectrumClient.ValueText | spectrum_client/spectrum.py:153-158 | an int value goes out as its `str` text, which reads back as the same integer; a string value goes out unchanged |
| SpectrumClient.AsList | spectrum_client/spectrum.py:144-145 | a bare item becomes a one-item list, a non-empty list is kept, an empty list raises IndexError |
| SpectrumClient.Spectrum.CheckHttpResponse | spectrum_client/spectrum.py:172-177 | passes exactly when the status is outside 400-599; 401 raises the authentication error with its message; any other 4xx/5xx raises the HTTP error |
| SpectrumClient.UnauthorizedWhateverTheBody | spectrum_client/spectrum.py:175-176 | a 401 fails a read, an update and a search with the authentication error, whatever the document holds |
| SpectrumClient.FirstFiring | spectrum_client/spectrum.py:98-128 | the index of the first marker whose element carries a non-empty error: every earlier marker is silent, and that one fires |
| SpectrumClient.FirstFiringOfGetMarkers | spectrum_client/spectrum.py:98-128 | the markers are tried in the order model, attribute, attribute-list, model-responses |
| SpectrumClient.Spectrum.ParseGet | spectrum_client/spectrum.py:98-128 | the HTTP check first; then the read passes exactly when no marker fires, and otherwise raises the first firing marker's message with its prefix |
| SpectrumClient.ModelErrorComesFirst | spectrum_client/spectrum.py:102-107 | a non-empty model error raises "Model Error: " plus that error, whatever the later markers say |
| SpectrumClient.NoMarkersPass | spectrum_client/spectrum.py:102-128 | absent elements and empty errors are skipped: a document with no non-empty error passes |
| SpectrumClient.Spectrum.ParseUpdate | spectrum_client/spectrum.py:130-141 | the HTTP check first; success exactly when the first model element's error is "Success"; "PartialFailure" raises the first attribute element's error-message; any other value raises the model's error-message; a missing element raises AttributeError |
| SpectrumClient.Spectrum.GetAttributeRequest | spectrum_client/spectrum.py:203-210 | a GET of `<url>/spectrum/restful/model/<handle>` with the one parameter ("attr", id), handle and id normalised |
| SpectrumClient.Spectrum.GetAttribute | spectrum_client/spectrum.py:208-215 | fails exactly as the read's checks fail; otherwise returns the first model element of the response, or None |
| SpectrumClient.GetAttributeReturnsFirstModel | spectrum_client/spectrum.py:211-215 | what a successful read returns is the first element `findall` lists for the model tag, and carries no non-empty error; None only when there is no model element |
| SpectrumClient.AttributeOnlyResponse | spectrum_client/spectrum.py:214-227 | for a response holding an attribute element and no model element, the code as written returns None while the intended fallback returns the attribute element |
| SpectrumClient.Spectrum.FirstOfReadTags | spectrum_client/spectrum.py:214-227 | the first model element, else the first attribute element, else the first attribute-list element; None only when none exists; always a descendant with one of those tags |
| SpectrumClient.Spectrum.GetAttributeWithFallback | spectrum_client/spectrum.py:214-227 | the read as its fallbacks intend: the same checks, then FirstOfReadTags of the response |
| SpectrumClient.UpdateParams | spectrum_client/spectrum.py:285-290 | n pairs give 2n parameters |
| SpectrumClient.UpdateParamsAt | spectrum_client/spectrum.py:285-290 | pair i gives ("attr", its normalised id) at position 2i and ("val", its value) at 2i+1 |
| SpectrumClient.UpdateRequestLayout | spectrum_client/spectrum.py:283-292 | an update of a list of n pairs sends 2n parameters in input order, "attr" then "val" for each pair |
| SpectrumClient.Spectrum.UpdateRequest | spectrum_client/spectrum.py:279-292 | a PUT of the model url with the flattened pairs; an empty list raises IndexError before anything is sent |
| SpectrumClient.Spectrum.UpdateAttributes | spectrum_client/spectrum.py:279-293 | an empty list raises IndexError; otherwise the outcome is `_parse_update` of the response to the update request |
| SpectrumClient.Spectrum.UpdateAttribute | spectrum_client/spectrum.py:275-277 | one pair is sent as ("attr", id) then ("val", value) |
| SpectrumClient.Spectrum.SetMaintenance | spectrum_client/spectrum.py:271-273 | maintenance on sets isManaged (0x1295d) to "False", off sets it to "True", and the outcome is the update's |
| SpectrumClient.LandscapeBoundsReadBack | spectrum_client/spectrum.py:179-195 | the landscape fragment is greater-than L, then less-than L + 0xfffff, both on the model handle 0x129fa |
| SpectrumClient.Spectrum.XmlLandscapeFilter | spectrum_client/spectrum.py:179-195 | the landscape fragment reads back as exactly the two landscape bounds, in order |
| SpectrumClient.LandscapeExample | spectrum_client/spectrum.py:193-194 | landscape 0x10000 is bounded by "0x10000" and "0x10ffff" |
| SpectrumClient.ToClauses | spectrum_client/spectrum.py:146-152 | one criterion per triple, in order: the operation, the id through `hex` when an int, the value through `str` |
| SpectrumClient.CriteriaLayout | spectrum_client/spectrum.py:143-169 | a search fails only on an empty list; otherwise the two landscape bounds come first (only when the landscape is truthy, so not for 0), then the caller's criteria |
| SpectrumClient.Spectrum.BuildFilter | spectrum_client/spectrum.py:143-170 | `_build_filter` fails only on an empty list, with IndexError, and otherwise writes exactly the `<and>` block of the search's criteria |
| Filters.ParseRenderClause | spectrum_client/spectrum.py:153-158 | a criterion whose fields hold no markup reads back as itself, leaving what follows untouched |
| Filters.ParseRenderAnd | spectrum_client/spectrum.py:159-169 | an `<and>` block of such criteria reads back as exactly those criteria, in order |
| Filters.ValueIsNotEscaped | spectrum_client/spectrum.py:153-158 | values are inserted verbatim: a value containing '<' never reads back as itself |
| SpectrumClient.SearchFilterReadsBack | spectrum_client/spectrum.py:143-170 | the filter of a search reads back as its criteria, every value verbatim, when the caller's triples hold no markup |
| SpectrumClient.PrependCriteria | spectrum_client/spectrum.py:231-232 | a triple put before a list lands right after the landscape bounds and before the list's criteria |
| SpectrumClient.DeviceOnlyClause | spectrum_client/spectrum.py:231 | the Device filter is is-derived-from, id "0x10001", value "65611" |
| SpectrumClient.Spectrum.DevicesSearch | spectrum_client/spectrum.py:229-233 | a bare triple raises TypeError; a list searches for the bounds, the Device filter, then the list's criteria |
| SpectrumClient.DevicesFilterReadsBack | spectrum_client/spectrum.py:229-233 | the device search's filter reads back as bounds, Device filter, caller's criteria |
| SpectrumClient.Spectrum.ModelsSearch | spectrum_client/spectrum.py:244-246 | the search request is a POST to `<url>/spectrum/restful/models` around the `<and>` block of the criteria; an empty list raises IndexError |
| SpectrumClient.Spectrum.SearchRequest | spectrum_client/spectrum.py:259-260 | a search is a POST to `<url>/spectrum/restful/models`, no parameters, the filter inside the search template with throttle size 9999 and the default attributes |
| SpectrumClient.Spectrum.ModelsByFilters | spectrum_client/spectrum.py:244-247 | an empty list raises IndexError; otherwise the result of the search for the criteria |
| SpectrumClient.Spectrum.DevicesByFilters | spectrum_client/spectrum.py:229-234 | a bare triple raises TypeError; otherwise the result of the search for bounds, Device filter and the caller's criteria |
| SpectrumClient.Spectrum.DevicesByAttr | spectrum_client/spectrum.py:236-238 | the search for bounds, the Device filter, then equality of the attribute with the value |
| SpectrumClient.Spectrum.DevicesByName | spectrum_client/spectrum.py:240-242 | the search for bounds, the Device filter, then a PCRE match of the model name 0x1006e |
| SpectrumClient.DevicesByNameSearches | spectrum_client/spectrum.py:240-242 | the filter of a device name search reads back as bounds, the criterion is-derived-from 0x10001 "65611", then has-pcre on 0x1006e with the pattern verbatim |
| SpectrumClient.Spectrum.ModelsByAttr | spectrum_client/spectrum.py:249-251 | the search for bounds then equality of the attribute with the value |
| SpectrumClient.ModelsByAttrSearches | spectrum_client/spectrum.py:249-251 | the filter of a model attribute search reads back as bounds then the one equality criterion |
| SpectrumClient.Spectrum.ModelsByName | spectrum_client/spectrum.py:253-255 | the search for bounds then a PCRE match of the model name 0x1006e |
| SpectrumClient.Spectrum.SearchResult | spectrum_client/spectrum.py:257-269 | fails exactly as the HTTP check fails; otherwise the map built from the response's model elements |
| SpectrumClient.DictKeys | spectrum_client/spectrum.py:264-268 | a dict comprehension has exactly the keys of its pairs |
| SpectrumClient.DictLast | spectrum_client/spectrum.py:264-268 | a key maps to the value of its last pair |
| SpectrumClient.ModelMapOf | spectrum_client/spectrum.py:262-268 | the handles of a search result are exactly the `mh` attributes of all model elements, a missing one as None |
| SpectrumClient.ModelMapValue | spectrum_client/spectrum.py:263-268 | a handle maps to the attribute map of the last model element carrying it |
| SpectrumClient.AttributeMap | spectrum_client/spectrum.py:265-266 | the ids of a model's attribute map are exactly the `id` attributes of its children |
| SpectrumClient.AttributeMapValue | spectrum_client/spectrum.py:266 | an id maps to the text of the last child carrying it |
| SpectrumClient.TwoModelsTwoKeys | spectrum_client/spectrum.py:263-268 | two model elements with different handles give a map with exactly those two handles |
| ElementTree.FirstIsHeadOfMatches | spectrum_client/spectrum.py:263 | the depth-first search returns the first element of the document-order list of matches, or nothing when that list is empty |
| ElementTree.FindIsFirstOfFindAll | spectrum_client/spectrum.py:215 | `find(".//tag")` is the first element `findall(".//tag")` lists, and None exactly when it lists none |
| ElementTree.FindFindsDescendant | spectrum_client/spectrum.py:215 | whatever `find` returns has the tag asked for and lies strictly below the element searched |
| SpectrumClient.Spectrum.VarBinds | spectrum_client/spectrum.py:297-299 | the loop appends one `<rs:varbind id=key>value</rs:varbind>` per variable, in order |
| SpectrumClient.Spectrum.GenerateEventByIp | spectrum_client/spectrum.py:296-303 | posts the event template with address, event type and varbinds to `<url>/spectrum/restful/events` and returns the response unchecked |

## Left out

- The HTTP calls (`requests.get/put/post`) and `HTTPBasicAuth` are left out. The transport is the `send`
  parameter, and the credentials are only stored. The `Content-Type` header is not modelled.
- `ET.fromstring` is left out: responses arrive already parsed, as an element tree.
- The environment-variable defaults read at import time are left out. `Connect` takes the url as an
  optional argument instead.
- The literal whitespace and comments of the XML templates are left out. Criteria are written with no
  whitespace between elements, and the search and event templates are kept as their fields (throttle
  size, filter, requested attributes, address, event type, varbinds).
- The message text of `requests`' HTTPError (reason and url) is left out. `TransportError` keeps the
  status only.
- Booleans, which Python accepts as ints, are not modelled as ids or values. `Scalar` is an int or a
  string.
- A list of plain scalars given as a filter is not modelled, nor a non-list, non-tuple argument. Filters
  are one triple or a list of triples.
- `requests` drops parameters whose value is None; the model has no None values.
- `generate_event_by_ip` takes a dict. The model takes its items as a sequence of pairs in insertion
  order, and does not enforce that the keys are distinct.
- `model.getchildren()` is taken as the element's children. It exists in the Python versions the package
  targets (up to 3.7).
- `setup.py` is not part of this model.

## Findings

| source | as written | input that shows it | evidently intended | confidence | as-written member | corrected member |
|---|---|---|---|---|---|---|
| spectrum_client/spectrum.py:214-227 | `return root.find(".//ca:model")` sits in a `try` that cannot raise, because `find` returns None instead of raising; the attribute and attribute-list fallbacks are dead code | a 200 response whose document holds a `ca:attribute` element and no `ca:model` element: `get_attribute` returns None | fall back to the first attribute element, then to the first attribute-list element, when there is no model element | medium, not executed | SpectrumClient.Spectrum.GetAttribute, SpectrumClient.AttributeOnlyResponse | SpectrumClient.Spectrum.GetAttributeWithFallback, SpectrumClient.Spectrum.FirstOfReadTags |
