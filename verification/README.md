# iComfort S30 zone polling and measurement mapping, in Dafny

This project models the two pure data transforms inside the iComfort S30 portal scraper:

- **Zone refresh** (`IComfort3Zone` in `lcc_zone.py`). A zone is fixed at construction by its home, controller (LCC) and zone
  identifiers. The `Zone` datatype stands for that constructor. A status refresh sends two ordered query lists. The first
  is the dashboard referer context. The second is the polling request, which carries a millisecond cache-buster. The
  portal's JSON reply is parsed into a flat zone record, which the model returns. The source's parse returns nothing on
  success; the second point below says why the model returns the record anyway. The parse:
  - a reply whose `Code` is not `LCC_ONLINE` is rejected;
  - `data.zoneDetail` is copied;
  - the four `{Value: x}` wrappers are unwrapped, and the ambient temperature text is converted to an integer;
  - the five identity and status fields of `data` are copied in.

  A falsy reply from the session short-circuits before any parsing.
- **Measurement mapping** (`generate_measurements` in `import_influxdb.py`). A flat record becomes a humidity point and/or
  an ambient-temperature point. Each point has a fixed unit label and the `domain` tag `sensor`. Its `entity_id` is the
  system name plus `_humidity` or `_temp`.

Modules:

- `Wrappers`: `Option` and `Result`.
- `Json`: decoded JSON values. An object is a sequence of members, and Python's dict lookup is `Get`, where the last
  repeated key wins, as with `json.loads`.
- `Decimal`: `str(n)` and `int(s)` for integers.
- `LccZone`: queries, cache-buster, parsing, fetch.
- `Measurements`: the points, plus the composition of a refresh with the mapping.

Several boundaries are parameters. The session's `request_json` is the function argument `session` of
`LccZone.FetchUpdate`. `time.time()` is the whole-second argument `secs`. `random.randint(0, 999)` is the argument
`offset`. The unused `time.time()` of `generate_measurements` is the argument `now`.

Two points of the model need a word of explanation:

- `generate_measurements` can fail. It raises when `systemName` is missing or is not text, and when a reading is
  not numeric. It is therefore a `Result`, not a total map.
- As written, `__parse_update` (`lcc_zone.py:109-130`) has no `return` on its success path, so `fetch_update` gives
  `None` for an online reply. The model instead returns the flattened record. This is the model's reading of intent,
  and three things support it: the docstring of `fetch_update` (`lcc_zone.py:143-144`) promises "a dict with the current
  status information", the driver (`import_influxdb.py:49-50`) passes that result straight to `generate_measurements`,
  and `generate_measurements` reads `systemName` from it. The record holds the flattened zone detail plus the five
  `data` fields (`HomeName`, `centralMode`, `isSysteminAwayMode`, `sysNotificationCount`, `systemName`). The source
  assigns those five to attributes of the zone object, and the model adds them to the record so that `systemName` is
  there to read. One piece of evidence points the other way: `fetch_home_name` (`lcc_zone.py:160-161`) reads
  `update['data']['HomeName']` from the result of `fetch_update`, as if it were the raw reply. The model does not
  follow that reading, because the driver's use is the one that carries data onward.

`lcc_zone.py` does not parse as Python, because lines 112 and 129 leave parentheses open. Line 119 parses but would
fail if run: `update.pop` is a method, so subscripting it raises `TypeError`. The model follows the evident intent of
each line. Line 112 becomes a dictionary copy of `zoneDetail`. Lines 119 and 129 are covered under "Left out".

## Model

| member | source | states |
|---|---|---|
| `Json.GetFindsKey` | icomfort3-scraper/lcc_zone.py:110 | Indexing a decoded object finds a key exactly when some member carries that key; otherwise it is the `KeyError` case |
| `Json.GetIsLastMember` | icomfort3-scraper/lcc_zone.py:110 | When a key is found, its value is the value of the last member carrying it, as in the dict `json.loads` builds |
| `Json.ToMap` | icomfort3-scraper/lcc_zone.py:112 | Copying the zone detail into a dictionary keeps exactly the keys the object has, each with the value lookup finds in the object |
| `Decimal.ShowNat` | icomfort3-scraper/lcc_zone.py:101 | `str` of a non-negative integer is a non-empty digit string with no leading zero (except for 0 itself) |
| `Decimal.ParseInt` | icomfort3-scraper/lcc_zone.py:114 | `int()` of a digit string is the number it denotes, and an optional leading sign negates or keeps it |
| `Decimal.ParseIntComplete` | icomfort3-scraper/lcc_zone.py:114 | Every integer literal `int()` accepts gives its signed value. Such a literal is whitespace, then an optional `+` or `-`, then one or more digits, then whitespace |
| `Decimal.ParseIntSound` | icomfort3-scraper/lcc_zone.py:114 | `int()` accepts nothing else: whenever it gives a value, the text is such a literal and the value is its signed value |
| `Decimal.ShowRoundTrip` | icomfort3-scraper/lcc_zone.py:99-101 | `int(str(n)) == n` for every integer, so the decimal token of the polling query can be read back exactly |
| `LccZone.RefererQuery` | icomfort3-scraper/lcc_zone.py:93-96 | The referer query has keys `zoneId`, `homeId`, `lcc_Id`, `refreshZonedeail` in that order, with no repeats. Their values are the zone, home and controller ids and `"False"` |
| `LccZone.RefererRoundTrip` | icomfort3-scraper/lcc_zone.py:93-96 | Reading the referer query back by key yields exactly the zone it was built for |
| `LccZone.CacheBuster` | icomfort3-scraper/lcc_zone.py:99 | The token lies in `[secs*1000, secs*1000 + 999]`. Dividing it by 1000 gives back the second, and the remainder gives back the random offset |
| `LccZone.PollingQuery` | icomfort3-scraper/lcc_zone.py:100-101 | The polling query has keys `zoneId`, `isPolling`, `lccId`, `_` in that order, with no repeats. Their values are the zone id, `"true"`, the controller id and the decimal text of the cache-buster |
| `LccZone.PollingRoundTrip` | icomfort3-scraper/lcc_zone.py:99-101 | Reading the polling query back yields the zone and controller ids and a millisecond value that recovers the clock second and the offset |
| `LccZone.QueriesAgree` | icomfort3-scraper/lcc_zone.py:93-101 | The referer and the polling query name the same zone. They name the same controller under the two spellings `lcc_Id` and `lccId` |
| `LccZone.AsWrittenTokenUnreadable` | icomfort3-scraper/lcc_zone.py:99 | The cache-buster as written (a tuple's text) is not an integer, so no polling query built with it can be read back |
| `LccZone.PyInt` | icomfort3-scraper/lcc_zone.py:114 | `int()` of a JSON value: a boolean becomes 0 or 1, an integer stays as it is, and text goes through `int()` of a string. Null, an array or an object gives no value, which is the `TypeError` case |
| `LccZone.Flatten` | icomfort3-scraper/lcc_zone.py:112-117 | Flattening succeeds exactly when the zone detail is an object and all four wrappers are objects with a `Value`, and the ambient value converts with `int()`. The result keeps every other member unchanged, holds the unwrapped set points, and holds the ambient temperature as an integer |
| `LccZone.CopyFields` | icomfort3-scraper/lcc_zone.py:123-127 | Copying succeeds exactly when every listed field is present in `data`. The result adds exactly those fields with their `data` values and leaves every other entry unchanged |
| `LccZone.ParseUpdate` | icomfort3-scraper/lcc_zone.py:109-127 | Fails with `NotOnline` exactly when `Code` is present and is not `LCC_ONLINE`, and otherwise fails only as malformed. It succeeds exactly on a well-shaped online reply, with no partial record. On success the four wrappers are unwrapped (ambient as an integer), the five `data` fields are copied, and every other zone-detail member is kept unchanged |
| `LccZone.FalsyNotShaped` | icomfort3-scraper/lcc_zone.py:154-155 | A falsy reply can never be a well-shaped online reply |
| `LccZone.FetchUpdate` | icomfort3-scraper/lcc_zone.py:153-156 | The refresh sends the referer and polling queries to the session. It reports `NoReply` exactly when the answer is falsy. For any truthy answer its result is exactly the parse of that answer, so a well-shaped answer gives the flattened record and an offline answer gives `NotOnline` |
| `LccZone.OfflineReplyRejected` | icomfort3-scraper/lcc_zone.py:110-111 | If the session answers with a `Code` other than `LCC_ONLINE`, the refresh fails with `NotOnline` |
| `LccZone.KeptMember` | icomfort3-scraper/lcc_zone.py:112-117 | A zone-detail member that is neither a wrapper nor a `data` field is in the record exactly when the reply has it, with its original value |
| `LccZone.CopiedSystemName` | icomfort3-scraper/lcc_zone.py:127 | The record's `systemName` is the one `data` carries |
| `LccZone.AmbientFromDecimalText` | icomfort3-scraper/lcc_zone.py:113-114 | When the ambient wrapper's `Value` is the decimal text of `n`, the record holds the integer `n` |
| `Measurements.GenerateMeasurements` | icomfort3-scraper/import_influxdb.py:10-35 | Succeeds exactly when a present reading comes with a text system name and every present reading is numeric. It emits one point per present reading (so at most 2, none for neither, 2 for both), humidity first. Every point has domain `sensor`. A humidity point has label `%`, entity `<systemName>_humidity` and the humidity value. A temperature point has label `°F`, entity `<systemName>_temp` and the ambient value |
| `Measurements.PointsMatchReadings` | icomfort3-scraper/import_influxdb.py:13-34 | A humidity point is emitted if and only if the record has `Humidity`, and a temperature point if and only if it has `AmbientTemperature` |
| `Measurements.MeasurementsIgnoreClock` | icomfort3-scraper/import_influxdb.py:10-11 | The mapping gives the same output whatever the clock reads |
| `Measurements.TemperatureLast` | icomfort3-scraper/import_influxdb.py:13-34 | For a record that has a `systemName` and an integer ambient temperature, mapping succeeds exactly when the system name is text and any humidity reading is numeric. On success the output ends with that temperature point, and it holds 2 points exactly when a humidity reading is present |
| `Measurements.RefreshThenMeasure` | icomfort3-scraper/import_influxdb.py:49-50 | After an online refresh, mapping succeeds exactly when the system name is text and any humidity reading is numeric. The last point is the temperature point with the integer parsed from the ambient wrapper, and a humidity point precedes it exactly when the zone detail has `Humidity` |

## Left out

- The session (`IComfort3Session`: login, `request_json`, `set_context`, `create_url`, logout) lives in `session.py`, which is not part of this model. Its reply is the function argument `session`. The 302 session-expiry handling described in the comment at `lcc_zone.py:75-80` is not modelled.
- Which URL path each query is attached to (`lcc_zone.py:97-98`, `102-103`) is not modelled: those lines pass the wrong path constant and query variable to `create_url`. Only the two query lists are modelled.
- `time.time()` and `random.randint(0, 999)` are arguments. The offset's range `0..999` is the precondition `randint` guarantees.
- The `pop` at `lcc_zone.py:119` (which, as noted above, would raise `TypeError`) has no effect on the model's record. Its intent only touches the raw reply, which the parse does not return. Whether a missing `zonepaging` member was meant to fail cannot be told from the code.
- The notification call at `lcc_zone.py:128-129` is left out: it calls an undefined function. So are `fetch_home_name` and `fetch_notifications` (`lcc_zone.py:159-166`), which are stubs. Line 130, which keeps the raw `zoneDetail` on the zone object, is left out too.
- The driver loop, the InfluxDB client, the `secrets` configuration and `write_points` (`import_influxdb.py:37-53`) are left out: they are network and database I/O. `Measurements.RefreshThenMeasure` states only what one loop iteration exports.
- JSON numbers with a fraction are not part of the `Json` datatype, and `float()` is not modelled. Readings are carried as their JSON value.
- Measurements.GenerateMeasurements: accepts every text reading, where Python's `float()` would raise `ValueError` on text that is not a number. Float parsing is out of scope.
- Decimal.ParseInt: strips only ASCII whitespace and accepts only ASCII digits. Python's `int()` also accepts Unicode whitespace and digits and `_` digit separators.
- The long comment on modes, fans and schedules (`lcc_zone.py:17-74`) describes the device and has no code behind it.

## Findings

| source | as written | input that shows it | evidently intended | confidence | as-written member | corrected member |
|---|---|---|---|---|---|---|
| icomfort3-scraper/lcc_zone.py:99 | `(int(time.time()) * 1000), + random.randint(0, 999)` builds a 2-tuple, so `str(current_millis)` sends the text `(1700000000000, 123)` as the `_` token. Before that, `random` is never imported in `lcc_zone.py` (lines 1-15), so the line would raise `NameError` | clock second 1700000000, offset 123 | the sum `1700000000123`, a millisecond time stamp | high; not executed | `LccZone.AsWrittenTokenUnreadable` | `LccZone.PollingRoundTrip` |
