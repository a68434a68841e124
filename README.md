# EcontPy request building, in Dafny

EcontPy is a Python client for the XML service of the Econt courier. Every
operation of its `Client` class follows the same steps. It checks its
arguments, builds an inner XML fragment, and fills the fixed request
envelope (`TEMPLATE`). The envelope holds the credentials, the wire name of
the request type, an optional updated time, the fragment and a client
software label. The client then posts the envelope and parses the answer.
The repository has two near-identical copies of the class, and this project
models both:

- `cli/__init__.py` numbers its request types 1..21, including
  `check_address`. Its constructor takes the credentials and refuses missing
  ones. Its `get_request_type` refuses a falsy id before the lookup.
- `cli/client.py` numbers its request types 0..19 and has no
  `check_address`. Its constructor leaves the credentials at None until
  `login` sets them. Its `get_request_type` is the bare dictionary lookup.

The project has these modules:

- `Values` (values.dfy): the Python values the builders format.
  - `Value` holds a str, an int or None.
  - `Truthy` is Python truthiness.
  - `Text` is `str()`, so None is written as "None".
  - The module also holds the decimal numerals used by the date patterns.
- `Errors` (values.dfy): the ways an operation fails.
  - a raised `Exception` with its message;
  - a `KeyError`;
  - an `UnboundLocalError`.
- `Scan` (scan.dfy): small string readers used to state round trips.
- `Catalog` (catalog.dfy): `REQUEST_TYPES` as rows, with:
  - the `in` membership test of `request`;
  - `dict(REQUEST_TYPES)[key]`, where a later row wins.
- `DateFormats` (date_formats.dfy): `DATE_FORMAT` and `UPDATED_TIME_FORMAT`
  as explicit character predicates. It also has a reference side, which
  formats calendar-free dates and time stamps: it writes the year, month,
  day and hour zero-padded, and the minute and second as `str()` writes
  them. The lemmas show that each pattern accepts exactly those texts.
- `Envelope` (envelope.dfy): `TEMPLATE.format(...)`, and a reader that takes
  a filled envelope apart by its tags.
- `Fragments` (fragments.dfy): the inner XML fragments of the builders,
  - the loop that joins one element per item;
  - a reader for each fragment.
- `CliInit` (cli_init.dfy) and `CliClient` (cli_client.dfy): the two
  `Client` classes.
  - `request` is modelled up to the rendered envelope.
  - Each builder returns the envelope it would send, or the error it raises.

The code is read as Python 2, because `cli/client.py` uses implicit
relative imports. So `\s` matches the six ASCII whitespace characters. `$`
matches at the end or before one final newline, and the model keeps that.

Some behaviour of the source looks unintended. The model keeps it as
written:

- The minute and second fields `([1-5]?[0-9]|60)` refuse "05" and "00".
- The hour field refuses "00".
- A wire name passed as `request_type` passes the membership test, and the
  dictionary lookup then raises KeyError.
- `get_post_boxes` with a non-empty list iterates the unassigned name
  `location`, so it always fails.
- A single shipment id is written without `<num>` tags
  (cli/__init__.py:142-143, cli/client.py:112-113).
- Nothing is XML-escaped.

## Model

| member | source | states |
|---|---|---|
| Values.TextOrEmpty | cli/__init__.py:108-109 | `x if x else ""`: a string is passed through unchanged, None gives "", and a number gives "" exactly when it is 0 |
| Values.NatToString | cli/__init__.py:143 | `str()` of a natural number is its canonical decimal numeral (no leading zero unless it is "0") and reads back as the same number |
| Values.IntToString | cli/__init__.py:143 | `str()` of an integer is a leading '-' exactly for negative numbers, followed by the numeral of its magnitude |
| Values.CanonicalNumeral | cli/__init__.py:68 | a canonical numeral is what `str()` writes for its own value, so the pattern's minute and second fields are exactly the numerals `str` produces |
| Catalog.LookupRow | cli/__init__.py:128 | `dict(rows)[id]` gives the name of the row holding `id` when no later row repeats the id |
| Catalog.LookupMissing | cli/__init__.py:128 | `dict(rows)` has no entry for an id that is in no row, which is the KeyError case |
| Catalog.LookupAgreesWithMembership | cli/__init__.py:101-102 | for an integer key, `any(key in row ...)` holds exactly when the dictionary has the key |
| Envelope.ParseRender | cli/__init__.py:54-65 | a filled template is read back field by field: username, password, request type, updated time, data and client software, each from its own slot, whenever the values cannot be mistaken for the tags after them |
| Envelope.RenderParse | cli/__init__.py:54-65 | anything that reads as an envelope is exactly the filling of the fields read from it, so filling the template is one-to-one on such fields |
| DateFormats.MonthFieldExactly | cli/__init__.py:67 | `(0[1-9]\|1[0-2])` accepts exactly the two-digit months 01..12 |
| DateFormats.DayFieldExactly | cli/__init__.py:67 | `(0[1-9]\|[1-2][0-9]\|3[0-1])` accepts exactly the two-digit days 01..31 |
| DateFormats.HourFieldExactly | cli/__init__.py:68 | `(0[1-9]\|1[0-9]\|2[0-4])` accepts exactly the two-digit hours 01..24, so 00 is refused |
| DateFormats.ClockFieldExactly | cli/__init__.py:68 | `([1-5]?[0-9]\|60)` accepts exactly the canonical numerals of 0..60, so "5" passes and "05" does not |
| DateFormats.Pad2Read | cli/__init__.py:67 | every two-digit field is the zero-padded numeral of its own value |
| DateFormats.Pad4Read | cli/__init__.py:67 | every four-digit year is the zero-padded numeral of its own value |
| DateFormats.DatePrefixRead | cli/__init__.py:67 | the first ten characters of an accepted date are the formatting of a valid year, month and day |
| DateFormats.DateFormatExactly | cli/__init__.py:67 | `match(DATE_FORMAT, s)` holds iff `s` is a four-digit year, a month 01..12 and a day 01..31 joined by '-', optionally followed by one newline, with no calendar check |
| DateFormats.UpdatedTimeRead | cli/__init__.py:68 | an accepted updated time is the formatting of the stamp read from it (valid date, whitespace, hour 01..24, minute and second 0..60), plus an optional final newline |
| DateFormats.UpdatedTimeAccepted | cli/__init__.py:68 | every such formatted stamp, with or without a final newline, is accepted |
| DateFormats.UpdatedTimeFormatExactly | cli/__init__.py:68 | `match(UPDATED_TIME_FORMAT, s)` holds iff `s` is a formatted valid stamp, optionally followed by one newline |
| DateFormats.DateExamples | cli/__init__.py:67 | 2024-02-30 and 2024-02-29 pass; 2024-13-01, 2024-00-10 and 2024-1-01 fail |
| DateFormats.UpdatedTimeLatestExample | cli/__init__.py:68 | "2024-01-01 24:60:60" passes |
| DateFormats.UpdatedTimeShortExample | cli/__init__.py:68 | "2024-01-01 10:5:0" passes |
| DateFormats.UpdatedTimeRejectedExamples | cli/__init__.py:68 | hour 00 ("2024-01-01 00:10:10") and a padded minute ("2024-01-01 10:05:00") are refused |
| Fragments.ElementReadsBack | cli/__init__.py:386-387 | an element `<tag>x</tag>` is read back as `x` followed by the text after it, when `x` has no '<' |
| Fragments.UnwrapReadsBack | cli/__init__.py:369-370 | text wrapped between an opening and a closing literal comes back unwrapped |
| Fragments.ElementUnwraps | cli/__init__.py:344-345 | the content of an element is recovered from it whatever it holds |
| Fragments.ElementsSnoc | cli/__init__.py:145-146 | appending one item to the list appends one element to the joined text |
| Fragments.ElementsReadBack | cli/__init__.py:366-367 | the joined elements read back as the `str()` of each item, in order, when no item text has '<' |
| Fragments.JoinElements | cli/__init__.py:145-146 | the append loop followed by `"".join` gives one `<tag>item</tag>` per item, in order |
| Fragments.RecordReadsBack | cli/__init__.py:173-185 | a run of tagged fields read in tag order gives back each field's content and the rest of the text |
| Fragments.RecordReadsWhole | cli/__init__.py:173-185 | a whole run of tagged fields reads back as its contents, with nothing left over |
| Fragments.RecordOfTwo | cli/__init__.py:421 | a two-field run is the two elements side by side |
| Fragments.RecordOfThree | cli/__init__.py:402 | a three-field run is the three elements side by side |
| Fragments.ShipmentListReadsBack | cli/__init__.py:145-149 | a list of shipment ids gives `<shipments ...>` around one `<num>` per id, which reads back as the ids' texts in order |
| Fragments.TrackingFlag | cli/__init__.py:148-149 | `full_tracking` is 'ON' iff `detailed`, and '' otherwise |
| Fragments.ScalarIsBare | cli/__init__.py:142-143 | a single id is written bare inside `<shipments>`, so reading `<num>` elements from it fails, unlike the one-element list |
| Fragments.CitiesLayout | cli/__init__.py:232-233 | the cities fragment is `<cities>`, the report type element, the zone element, the city names and `</cities>`, in that order |
| Fragments.CitiesReadBack | cli/__init__.py:229-233 | the cities fragment reads back as the report type, the zone and then one name per city, in order |
| Fragments.AddressReadsBack | cli/__init__.py:173-197 | the address fragment reads back as its eleven fields in template order, with "None" for each one left out, when no field has '<' |
| Fragments.ClientInfoReadsBack | cli/__init__.py:402-403 | the client-info fragment reads back as ein, egn and id, in that order |
| Fragments.AgreementReadsBack | cli/__init__.py:421-422 | the agreement fragment reads back as client name and then agreement id |
| Fragments.MediatorReadsBack | cli/__init__.py:436-444 | the mediator fragment reads back as the id alone without a start date, and as the id and then the date with one |
| CliInit.CatalogLookup | cli/__init__.py:34-52 | the dictionary of `REQUEST_TYPES` maps each id 1..21 to the name in its row and has no other integer key |
| CliInit.Membership | cli/__init__.py:101-102 | the membership test admits exactly the integer ids 1..21, admits a string only if it is a wire name, and never admits None |
| CliInit.PlainName | cli/__init__.py:34-52 | no wire name is empty or holds '<' |
| CliInit.IdsDistinct | cli/__init__.py:34-52 | no two rows share an id |
| CliInit.TemplateDelimited | cli/__init__.py:54-65 | in `TEMPLATE` a tag follows every slot, and a tag ends just before the client software slot |
| CliInit.Client.constructor | cli/__init__.py:72-85 | a client built from both credentials keeps them and the demo flag |
| CliInit.Client.Create | cli/__init__.py:80-81 | `Client(...)` raises "No username or password supplied" iff a credential is falsy, and otherwise stores both and the demo flag |
| CliInit.Client.GetRequestType | cli/__init__.py:119-128 | a falsy id is refused, an id 1..21 gives its row's name, and any other key raises KeyError |
| CliInit.Client.Request | cli/__init__.py:87-110 | succeeds iff the type is an integer 1..21, and then renders the credentials, that type's name, the updated time or "", the data or "" and the label; a key in no row raises "Invalid request type"; a wire name raises KeyError |
| CliInit.Client.Send | cli/__init__.py:104-110 | a builder's call with a known id renders the envelope with that id's name, the given updated time and data, and the label "EcontPy" |
| CliInit.Client.Since | cli/__init__.py:208-214 | an updated time that is given and does not match is refused; otherwise the envelope carries it, or "" |
| CliInit.Client.GetShipments | cli/__init__.py:130-151 | a falsy argument raises; otherwise the `shipments` envelope carries the shipments fragment of the ids with the tracking flag |
| CliInit.Client.ValidateAddress | cli/__init__.py:153-199 | no city raises "Invalid city supplied"; otherwise the `check_address` envelope carries the address fragment |
| CliInit.Client.GetCitiesZones | cli/__init__.py:202-214 | a bad updated time raises; otherwise the `cities_zones` envelope carries the updated time or "" and no data |
| CliInit.Client.GetCities | cli/__init__.py:216-249 | a bad updated time raises in either branch; otherwise the `cities` envelope carries the report type, the zone and one `<city_name>` per city in order, or no data for no cities |
| CliInit.Client.GetCitiesRegions | cli/__init__.py:251-262 | as for zones, with `cities_regions` |
| CliInit.Client.GetCitiesStreets | cli/__init__.py:264-276 | as for zones, with `cities_streets` |
| CliInit.Client.GetCitiesQuarters | cli/__init__.py:278-290 | as for zones, with `cities_quarters` |
| CliInit.Client.GetOffices | cli/__init__.py:292-304 | as for zones, with `offices` |
| CliInit.Client.GetPostBoxes | cli/__init__.py:306-323 | any non-empty list of locations fails on the unbound name `location`; no locations send `post_boxes` with no data |
| CliInit.Client.GetTariffCourier | cli/__init__.py:325-327 | the `tariff_courier` envelope with no data |
| CliInit.Client.GetTariffPost | cli/__init__.py:329-331 | the `tariff_post` envelope with no data |
| CliInit.Client.GetProfile | cli/__init__.py:333-335 | the `profile` envelope with no data |
| CliInit.Client.GetRegistrationRequest | cli/__init__.py:337-349 | a given e-mail is sent in `<registration_request_mail>`, and otherwise there is no data |
| CliInit.Client.GetCountries | cli/__init__.py:351-353 | the `countries` envelope with no data |
| CliInit.Client.CancelShipments | cli/__init__.py:355-372 | an empty list raises; otherwise one `<num>` per id, in order, inside `<cancel_shipments>` |
| CliInit.Client.GetDeliveryDays | cli/__init__.py:374-389 | a missing date or one that does not match `DATE_FORMAT` raises; otherwise the date is sent verbatim in `<delivery_days>` |
| CliInit.Client.GetClientInfo | cli/__init__.py:391-405 | a falsy ein, egn or id raises; otherwise the client-info fragment |
| CliInit.Client.GetClients | cli/__init__.py:407-409 | the `access_clients` envelope with no data |
| CliInit.Client.CheckCdAgreement | cli/__init__.py:411-424 | a falsy client name or agreement id raises; otherwise the agreement fragment |
| CliInit.Client.GetMediatorData | cli/__init__.py:426-446 | no id raises; a given start date that does not match raises; otherwise the mediator fragment, with the date only when given |
| CliInit.RequestReadsBack | cli/__init__.py:87-110 | every field of a successful request is read back from its own slot: the credentials, the id's name, the updated time or "", the data or "" and the label |
| CliInit.RenderedReadsBack | cli/__init__.py:104-110 | a builder's envelope reads back as the credentials, the wire name, the updated time, the data fragment exactly as built, and "EcontPy" |
| CliInit.NamePassedForId | cli/__init__.py:101-107 | `request("cities")` passes the membership test and then raises KeyError |
| CliClient.CatalogLookup | cli/client.py:30-47 | the dictionary of `REQUEST_TYPES` maps each id 0..19 to the name in its row and has no other integer key |
| CliClient.Membership | cli/client.py:83-84 | the membership test admits exactly the integer ids 0..19, admits a string only if it is a wire name, and never admits None |
| CliClient.PlainName | cli/client.py:30-47 | no wire name is empty or holds '<' |
| CliClient.IdsDistinct | cli/client.py:30-47 | no two rows share an id |
| CliClient.NoCheckAddress | cli/client.py:30-47 | there is no `check_address` row and no id 20 |
| CliClient.TemplateDelimited | cli/client.py:49-60 | in this template a tag follows every slot, and a tag ends just before the client software slot |
| CliClient.Client.constructor | cli/client.py:67-70 | a new client has None for both credentials and keeps the demo flag |
| CliClient.Client.Login | cli/client.py:72-75 | `login` sets both credentials, keeps the demo flag and returns the same client |
| CliClient.Client.GetRequestType | cli/client.py:97-98 | with no falsy guard, id 0 gives 'shipments', every id 0..19 gives its row's name, and any other key raises KeyError |
| CliClient.Client.Request | cli/client.py:77-92 | succeeds iff the type is an integer 0..19, and then renders the credentials, that type's name, the updated time or "", the data or "" and the label; a key in no row raises "Invalid request type"; a wire name raises KeyError |
| CliClient.Client.Send | cli/client.py:86-92 | a builder's call with a known id renders the envelope with that id's name, the given updated time and data, and the label "EcontPy" |
| CliClient.Client.Since | cli/client.py:129-135 | an updated time that is given and does not match is refused; otherwise the envelope carries it, or "" |
| CliClient.Client.GetShipments | cli/client.py:100-121 | a falsy argument raises; otherwise the `shipments` envelope carries the shipments fragment of the ids with the tracking flag |
| CliClient.Client.GetCitiesZones | cli/client.py:123-135 | a bad updated time raises; otherwise the `cities_zones` envelope carries the updated time or "" and no data |
| CliClient.Client.GetCities | cli/client.py:137-170 | a bad updated time raises in either branch; otherwise the `cities` envelope carries the report type, the zone and one `<city_name>` per city in order, or no data for no cities |
| CliClient.Client.GetCitiesRegions | cli/client.py:172-184 | as for zones, with `cities_regions` |
| CliClient.Client.GetCitiesStreets | cli/client.py:186-198 | as for zones, with `cities_streets` |
| CliClient.Client.GetCitiesQuarters | cli/client.py:200-212 | as for zones, with `cities_quarters` |
| CliClient.Client.GetOffices | cli/client.py:214-226 | as for zones, with `offices` |
| CliClient.Client.GetPostBoxes | cli/client.py:228-245 | any non-empty list of locations fails on the unbound name `location`; no locations send `post_boxes` with no data |
| CliClient.Client.GetTariffCourier | cli/client.py:247-251 | the `tariff_courier` envelope with no data |
| CliClient.Client.GetTariffPost | cli/client.py:253-257 | the `tariff_post` envelope with no data |
| CliClient.Client.GetProfile | cli/client.py:259-263 | the `profile` envelope with no data |
| CliClient.Client.GetRegistrationRequest | cli/client.py:265-275 | a given e-mail is sent in `<registration_request_mail>`, and otherwise there is no data |
| CliClient.Client.GetCountries | cli/client.py:277-281 | the `countries` envelope with no data |
| CliClient.Client.CancelShipments | cli/client.py:283-300 | an empty list raises; otherwise one `<num>` per id, in order, inside `<cancel_shipments>` |
| CliClient.Client.GetDeliveryDays | cli/client.py:302-315 | a missing date or one that does not match `DATE_FORMAT` raises; otherwise the date is sent verbatim in `<delivery_days>` |
| CliClient.Client.GetClientInfo | cli/client.py:317-331 | a falsy ein, egn or id raises; otherwise the client-info fragment |
| CliClient.Client.GetClients | cli/client.py:333-337 | the `access_clients` envelope with no data |
| CliClient.Client.CheckCdAgreement | cli/client.py:339-352 | a falsy client name or agreement id raises; otherwise the agreement fragment |
| CliClient.Client.GetMediatorData | cli/client.py:354-374 | no id raises; a given start date that does not match raises; otherwise the mediator fragment, with the date only when given |
| CliClient.RequestReadsBack | cli/client.py:77-92 | every field of a successful request is read back from its own slot: the credentials, the id's name, the updated time or "", the data or "" and the label |
| CliClient.RenderedReadsBack | cli/client.py:86-92 | a builder's envelope reads back as the credentials, the wire name, the updated time, the data fragment exactly as built, and "EcontPy" |
| CliClient.NamePassedForId | cli/client.py:83-89 | `request("cities")` passes the membership test and then raises KeyError |
| CliClient.NoneBeforeLogin | cli/client.py:67-92 | before `login`, an envelope carries the text "None" in both credential slots |

## Left out

- Sending is not modelled.
  - `request` stops at the rendered envelope.
  - The HTTP POST and the choice of URL by the demo flag are network I/O. They are at cli/__init__.py:112-115 and cli/client.py:94-95.
  - The demo flag is only stored.
- Response parsing is not modelled. It is `xmltodict.parse` and a JSON round trip at cli/__init__.py:117, a call into foreign libraries.
- cli/http/request.py is not part of this model, because it holds only network I/O.
- cli/exceptions.py is not part of this model, because no code uses it. The model's own `Error` type covers the three ways the builders fail.
- The `__main__` demo block at cli/__init__.py:448-450 is not modelled.
- Argument values are limited to str, int and None.
  - Bools, floats, longs and unicode strings are not modelled, nor what `str()` and truthiness make of them.
  - List arguments are sequences of such values.
  - A string passed where `get_cities`, `cancel_shipments` or `get_post_boxes` iterate would be iterated character by character; this is not modelled.
  - A shipments argument that is neither an int, a str nor a sequence is not modelled.
- Dates and updated times are strings, with "" standing for None; both are falsy and every builder treats them alike. A non-string date, which makes `re.match` raise TypeError, is not modelled.
- `account_roles` has a catalog row, but neither copy has a builder for it. Only its row is modelled.
- `get_post_boxes` never reaches its location-building code, so the `<post_boxes>` fragment it would build is not modelled.
- Fragments.ElementsReadBack, Fragments.RecordReadsBack and Envelope.ParseRender hold only for values without '<' in a tagged slot, and without '>' in the client software label. Nothing is escaped, so other values give envelopes that cannot be read back unambiguously.
- CliInit.RequestReadsBack, CliInit.RenderedReadsBack, CliClient.RequestReadsBack and CliClient.RenderedReadsBack carry the same restriction on the credentials and the updated time.
- Distinct wire names are not stated. The ids are distinct (IdsDistinct), and that is what the dictionary lookup depends on.
