/** One thermostat zone of the portal: the polling queries it sends and the flattening of the
    zone-detail reply into a flat record. */
module LccZone {
  import opened Wrappers
  import opened Json
  import Decimal

  /** The polling target fixed at construction: home, controller (LCC) and zone identifiers. */
  datatype Zone = Zone(homeId: string, lccId: string, zoneId: string)

  /** An ordered list of query parameters, before the session turns it into a URL. */
  type Query = seq<(string, string)>

  /** The two query lists one status refresh sends: the dashboard context given as referer, and
      the polling request itself. */
  datatype Request = Request(referer: Query, polling: Query)

  /** Why a refresh produced no record. `NoReply`: the session returned a falsy value;
      `NotOnline`: the controller reported a status other than online; `Malformed(key)`: the
      reply lacks `key` or has it in the wrong shape (a `KeyError`, `TypeError` or `ValueError`
      in Python). */
  datatype PollError = NoReply | NotOnline | Malformed(key: string)

  const OnlineCode := "LCC_ONLINE"
  const RefererKeys: seq<string> := ["zoneId", "homeId", "lcc_Id", "refreshZonedeail"]
  const PollingKeys: seq<string> := ["zoneId", "isPolling", "lccId", "_"]

  /** The four zone-detail fields that arrive wrapped as `{Value: x}`. */
  const WrappedKeys: set<string> := {"AmbientTemperature", "CoolSetPoint", "HeatSetPoint", "SingleSetPoint"}

  /** The fields copied from the reply's `data` object, in the order they are read. */
  const DataKeys: seq<string> := ["HomeName", "centralMode", "isSysteminAwayMode", "sysNotificationCount", "systemName"]

  // ---------------------------------------------------------------------------------------------
  // Query construction

  function Keys(q: Query): (ks: seq<string>)
    ensures |ks| == |q|
    ensures forall i :: 0 <= i < |q| ==> ks[i] == q[i].0
  {
    if |q| == 0 then [] else [q[0].0] + Keys(q[1..])
  }

  /** The first value given for `k`, as the server reads a query string. */
  function Lookup(q: Query, k: string): Option<string>
  {
    if |q| == 0 then None else if q[0].0 == k then Some(q[0].1) else Lookup(q[1..], k)
  }

  predicate DistinctKeys(q: Query)
  {
    forall i, j :: 0 <= i < j < |q| ==> q[i].0 != q[j].0
  }

  /** In a query without repeated keys every pair is found by its key. */
  lemma {:induction false} LookupDistinct(q: Query, i: int)
    requires DistinctKeys(q) && 0 <= i < |q|
    ensures Lookup(q, q[i].0) == Some(q[i].1)
  {
    if i > 0 {
      assert q[1..][i - 1] == q[i];
      LookupDistinct(q[1..], i - 1);
    }
  }

  /** The dashboard context the refresh is sent from. */
  function RefererQuery(z: Zone): (q: Query)
    ensures Keys(q) == RefererKeys && DistinctKeys(q)
    ensures q[0].1 == z.zoneId && q[1].1 == z.homeId && q[2].1 == z.lccId && q[3].1 == "False"
  {
    [("zoneId", z.zoneId), ("homeId", z.homeId), ("lcc_Id", z.lccId), ("refreshZonedeail", "False")]
  }

  /** The anti-cache token: the whole-second clock reading in milliseconds plus a random
      offset of at most 999 milliseconds. */
  function CacheBuster(secs: int, offset: int): (millis: int)
    requires 0 <= offset <= 999
    ensures secs * 1000 <= millis <= secs * 1000 + 999
    ensures millis / 1000 == secs && millis % 1000 == offset
  {
    secs * 1000 + offset
  }

  /** The polling request, carrying the cache-buster in decimal under the key `_`. */
  function PollingQuery(z: Zone, secs: int, offset: int): (q: Query)
    requires 0 <= offset <= 999
    ensures Keys(q) == PollingKeys && DistinctKeys(q)
    ensures q[0].1 == z.zoneId && q[1].1 == "true" && q[2].1 == z.lccId
    ensures q[3].1 == Decimal.Show(CacheBuster(secs, offset))
  {
    [("zoneId", z.zoneId), ("isPolling", "true"), ("lccId", z.lccId), ("_", Decimal.Show(CacheBuster(secs, offset)))]
  }

  function UpdateRequest(z: Zone, secs: int, offset: int): Request
    requires 0 <= offset <= 999
  {
    Request(RefererQuery(z), PollingQuery(z, secs, offset))
  }

  /** How the portal reads a referer query back into a zone: every identifier must be present and
      the refresh flag must be off. */
  function DecodeReferer(q: Query): Option<Zone>
  {
    var zone :- Lookup(q, "zoneId");
    var home :- Lookup(q, "homeId");
    var lcc :- Lookup(q, "lcc_Id");
    var refresh :- Lookup(q, "refreshZonedeail");
    if refresh == "False" then Some(Zone(home, lcc, zone)) else None
  }

  /** What the portal reads from a polling query: zone, controller and the millisecond token. */
  datatype Poll = Poll(zoneId: string, lccId: string, millis: int)

  function DecodePolling(q: Query): Option<Poll>
  {
    var zone :- Lookup(q, "zoneId");
    var polling :- Lookup(q, "isPolling");
    var lcc :- Lookup(q, "lccId");
    var token :- Lookup(q, "_");
    var millis :- Decimal.ParseInt(token);
    if polling == "true" then Some(Poll(zone, lcc, millis)) else None
  }

  /** The referer query names exactly the zone it was built for. */
  lemma RefererRoundTrip(z: Zone)
    ensures DecodeReferer(RefererQuery(z)) == Some(z)
  {
    var q := RefererQuery(z);
    LookupDistinct(q, 0);
    LookupDistinct(q, 1);
    LookupDistinct(q, 2);
    LookupDistinct(q, 3);
  }

  /** The polling query names the zone's zone and controller, and its token decodes to the
      cache-buster, from which the clock second and the random offset are recovered. */
  lemma PollingRoundTrip(z: Zone, secs: int, offset: int)
    requires 0 <= offset <= 999
    ensures DecodePolling(PollingQuery(z, secs, offset)).Some?
    ensures var p := DecodePolling(PollingQuery(z, secs, offset)).value;
      && p.zoneId == z.zoneId && p.lccId == z.lccId
      && secs * 1000 <= p.millis <= secs * 1000 + 999
      && p.millis / 1000 == secs && p.millis % 1000 == offset
  {
    var q := PollingQuery(z, secs, offset);
    LookupDistinct(q, 0);
    LookupDistinct(q, 1);
    LookupDistinct(q, 2);
    LookupDistinct(q, 3);
    Decimal.ShowRoundTrip(CacheBuster(secs, offset));
  }

  /** The referer and the polling request agree on the zone and the controller, although they
      spell the controller key differently. */
  lemma QueriesAgree(z: Zone, secs: int, offset: int)
    requires 0 <= offset <= 999
    ensures Lookup(RefererQuery(z), "zoneId") == Lookup(PollingQuery(z, secs, offset), "zoneId")
    ensures Lookup(RefererQuery(z), "lcc_Id") == Lookup(PollingQuery(z, secs, offset), "lccId")
  {
    LookupDistinct(RefererQuery(z), 0);
    LookupDistinct(RefererQuery(z), 2);
    LookupDistinct(PollingQuery(z, secs, offset), 0);
    LookupDistinct(PollingQuery(z, secs, offset), 2);
  }

  // ---------------------------------------------------------------------------------------------
  // The cache-buster as the source writes it: `(a), + b` builds the tuple `(a, b)`, so the token
  // sent is the tuple's text rather than the sum.

  function CacheBusterAsWritten(secs: int, offset: int): string
  {
    "(" + Decimal.Show(secs * 1000) + ", " + Decimal.Show(offset) + ")"
  }

  function PollingQueryAsWritten(z: Zone, secs: int, offset: int): Query
  {
    [("zoneId", z.zoneId), ("isPolling", "true"), ("lccId", z.lccId), ("_", CacheBusterAsWritten(secs, offset))]
  }

  /** The as-written token is not an integer at all, so no millisecond value can be read from it,
      whatever the clock and the offset. */
  lemma AsWrittenTokenUnreadable(z: Zone, secs: int, offset: int)
    ensures DecodePolling(PollingQueryAsWritten(z, secs, offset)).None?
  {
    var t := CacheBusterAsWritten(secs, offset);
    assert t[0] == '(' && t[|t| - 1] == ')';
    assert Decimal.ParseInt(t).None?;
    var q := PollingQueryAsWritten(z, secs, offset);
    assert DistinctKeys(q);
    LookupDistinct(q, 0);
    LookupDistinct(q, 1);
    LookupDistinct(q, 2);
    LookupDistinct(q, 3);
  }

  // ---------------------------------------------------------------------------------------------
  // Parsing the reply

  /** `j[k]`, with a missing key or a non-object reported as malformed at `k`. */
  function Field(j: Json, k: string): Result<Json, PollError>
  {
    match Member(j, k)
    case Some(v) => Success(v)
    case None => Failure(Malformed(k))
  }

  /** Python's `int(x)` on a decoded JSON value: integers as they are, booleans as 0 and 1,
      strings through decimal parsing; anything else raises. */
  function PyInt(j: Json): (r: Option<int>)
    ensures r.Some? ==> !(j.JNull? || j.JArr? || j.JObj?)
    ensures j.JInt? ==> r == Some(j.i)
    ensures j.JBool? ==> r == Some(if j.b then 1 else 0)
    ensures j.JStr? ==> r == Decimal.ParseInt(j.s)
  {
    match j
    case JInt(i) => Some(i)
    case JBool(b) => Some(if b then 1 else 0)
    case JStr(s) => Decimal.ParseInt(s)
    case _ => None
  }

  /** `detail[k]['Value']`. */
  function Unwrap(detail: Record, k: string): Result<Json, PollError>
  {
    if k !in detail then Failure(Malformed(k))
    else match Member(detail[k], "Value")
      case Some(v) => Success(v)
      case None => Failure(Malformed(k))
  }

  /** Member `k` of the zone detail is a `{Value: x}` wrapper. */
  ghost predicate IsWrapped(ms: Members, k: string)
  {
    Get(ms, k).Some? && Member(Get(ms, k).value, "Value").Some?
  }

  /** The `x` inside the wrapper at `k`. */
  ghost function Wrapped(ms: Members, k: string): Json
    requires IsWrapped(ms, k)
  {
    Member(Get(ms, k).value, "Value").value
  }

  /** Unwrapping the dictionary built from `ms` succeeds exactly on a wrapper, with its `Value`. */
  lemma UnwrapAgrees(ms: Members, k: string)
    ensures Unwrap(ToMap(ms), k).Success? <==> IsWrapped(ms, k)
    ensures IsWrapped(ms, k) ==> Unwrap(ToMap(ms), k).value == Wrapped(ms, k)
    ensures Unwrap(ToMap(ms), k).Failure? ==> Unwrap(ToMap(ms), k).error == Malformed(k)
  {
  }

  /** The shape a zone detail must have to be flattened: the four wrappers are present, and the
      ambient temperature inside its wrapper converts to an integer. */
  ghost predicate DetailShaped(ms: Members)
  {
    && IsWrapped(ms, "AmbientTemperature")
    && IsWrapped(ms, "CoolSetPoint")
    && IsWrapped(ms, "HeatSetPoint")
    && IsWrapped(ms, "SingleSetPoint")
    && PyInt(Wrapped(ms, "AmbientTemperature")).Some?
  }

  /** `rec` is the zone detail `ms` with its four wrappers unwrapped, the ambient temperature
      converted to an integer, and every other member kept with its value. */
  ghost predicate DetailFlattened(ms: Members, rec: Record)
    requires DetailShaped(ms)
  {
    && (forall k :: k in rec <==> Get(ms, k).Some?)
    && (forall k :: k in rec && k !in WrappedKeys ==> rec[k] == Get(ms, k).value)
    && "AmbientTemperature" in rec
    && rec["AmbientTemperature"] == JInt(PyInt(Wrapped(ms, "AmbientTemperature")).value)
    && "CoolSetPoint" in rec && rec["CoolSetPoint"] == Wrapped(ms, "CoolSetPoint")
    && "HeatSetPoint" in rec && rec["HeatSetPoint"] == Wrapped(ms, "HeatSetPoint")
    && "SingleSetPoint" in rec && rec["SingleSetPoint"] == Wrapped(ms, "SingleSetPoint")
  }

  /** The four in-place replacements of the flattening. */
  function Unwrapped(detail: Record, degrees: int, cool: Json, heat: Json, single: Json): Record
  {
    detail["AmbientTemperature" := JInt(degrees)]["CoolSetPoint" := cool]
          ["HeatSetPoint" := heat]["SingleSetPoint" := single]
  }

  lemma UnwrappedFlattens(ms: Members, degrees: int, cool: Json, heat: Json, single: Json)
    requires DetailShaped(ms)
    requires degrees == PyInt(Wrapped(ms, "AmbientTemperature")).value
    requires cool == Wrapped(ms, "CoolSetPoint")
    requires heat == Wrapped(ms, "HeatSetPoint")
    requires single == Wrapped(ms, "SingleSetPoint")
    ensures DetailFlattened(ms, Unwrapped(ToMap(ms), degrees, cool, heat, single))
  {
    var detail := ToMap(ms);
    var rec := Unwrapped(detail, degrees, cool, heat, single);
    assert rec.Keys == detail.Keys + WrappedKeys;
    forall k | k in rec && k !in WrappedKeys
      ensures rec[k] == Get(ms, k).value
    {
      assert rec[k] == detail[k];
    }
  }

  /** Flattens the `zoneDetail` object: copies it into a dictionary, then replaces each wrapper
      by its `Value`, the ambient temperature converted with `int()`. */
  function Flatten(zoneDetail: Json): (r: Result<Record, PollError>)
    ensures r.Success? <==> zoneDetail.JObj? && DetailShaped(zoneDetail.members)
    ensures r.Success? ==> DetailFlattened(zoneDetail.members, r.value)
    ensures r.Failure? ==> r.error.Malformed?
  {
    if !zoneDetail.JObj? then Failure(Malformed("zoneDetail"))
    else
      var ms := zoneDetail.members;
      UnwrapAgrees(ms, "AmbientTemperature");
      UnwrapAgrees(ms, "CoolSetPoint");
      UnwrapAgrees(ms, "HeatSetPoint");
      UnwrapAgrees(ms, "SingleSetPoint");
      var detail := ToMap(ms);
      var ambient :- Unwrap(detail, "AmbientTemperature");
      var degrees :- match PyInt(ambient)
        case Some(n) => Success(n)
        case None => Failure(Malformed("AmbientTemperature"));
      var cool :- Unwrap(detail, "CoolSetPoint");
      var heat :- Unwrap(detail, "HeatSetPoint");
      var single :- Unwrap(detail, "SingleSetPoint");
      UnwrappedFlattens(ms, degrees, cool, heat, single);
      Success(Unwrapped(detail, degrees, cool, heat, single))
  }

  /** Copies `data[k]` into `flat` for each `k` of `keys` in turn; the first missing key fails. */
  function CopyFields(data: Json, flat: Record, keys: seq<string>): (r: Result<Record, PollError>)
    ensures r.Success? <==> forall i :: 0 <= i < |keys| ==> Member(data, keys[i]).Some?
    ensures r.Success? ==> forall k :: k in r.value <==> k in flat || k in keys
    ensures r.Success? ==> forall i :: 0 <= i < |keys| ==> r.value[keys[i]] == Member(data, keys[i]).value
    ensures r.Success? ==> forall k :: k in flat && k !in keys ==> r.value[k] == flat[k]
    ensures r.Failure? ==> r.error.Malformed?
    decreases |keys|
  {
    if |keys| == 0 then Success(flat)
    else
      var v :- Field(data, keys[0]);
      CopyFields(data, flat[keys[0] := v], keys[1..])
  }

  ghost function Data(update: Json): Json
    requires Member(update, "data").Some?
  {
    Member(update, "data").value
  }

  /** The reply reports the controller online and carries everything the flattening reads. */
  ghost predicate WellShaped(update: Json)
  {
    && Member(update, "Code") == Some(JStr(OnlineCode))
    && Member(update, "data").Some?
    && Member(Data(update), "zoneDetail").Some?
    && Member(Data(update), "zoneDetail").value.JObj?
    && DetailShaped(Member(Data(update), "zoneDetail").value.members)
    && forall i :: 0 <= i < |DataKeys| ==> Member(Data(update), DataKeys[i]).Some?
  }

  /** The zone-detail members of a well-shaped reply. */
  ghost function ZoneDetail(update: Json): Members
    requires WellShaped(update)
  {
    Member(Data(update), "zoneDetail").value.members
  }

  /** `rec` is the flattened zone detail of `update` with the five `data` fields laid over it. */
  ghost predicate FlattenedFrom(update: Json, rec: Record)
    requires WellShaped(update)
  {
    var data := Data(update);
    var ms := Member(data, "zoneDetail").value.members;
    && (forall k :: k in rec <==> Get(ms, k).Some? || k in DataKeys)
    && (forall i :: 0 <= i < |DataKeys| ==> rec[DataKeys[i]] == Member(data, DataKeys[i]).value)
    && (forall k :: k in rec && k !in WrappedKeys && k !in DataKeys ==> rec[k] == Get(ms, k).value)
    && rec["AmbientTemperature"] == JInt(PyInt(Wrapped(ms, "AmbientTemperature")).value)
    && rec["CoolSetPoint"] == Wrapped(ms, "CoolSetPoint")
    && rec["HeatSetPoint"] == Wrapped(ms, "HeatSetPoint")
    && rec["SingleSetPoint"] == Wrapped(ms, "SingleSetPoint")
  }

  lemma CopyKeeps(data: Json, flat: Record, keys: seq<string>, rec: Record, k: string)
    requires CopyFields(data, flat, keys) == Success(rec)
    requires k in flat && k !in keys
    ensures k in rec && rec[k] == flat[k]
  {
  }

  lemma WrappedNotData()
    ensures forall k :: k in WrappedKeys ==> k !in DataKeys
  {
  }

  lemma CopiedFlattens(update: Json, flat: Record, rec: Record)
    requires WellShaped(update)
    requires DetailFlattened(Member(Data(update), "zoneDetail").value.members, flat)
    requires CopyFields(Data(update), flat, DataKeys) == Success(rec)
    ensures FlattenedFrom(update, rec)
  {
    var data := Data(update);
    var ms := Member(data, "zoneDetail").value.members;
    WrappedNotData();
    forall k | k in rec && k !in WrappedKeys && k !in DataKeys
      ensures rec[k] == Get(ms, k).value
    {
      assert rec[k] == flat[k];
    }
    CopyKeeps(data, flat, DataKeys, rec, "AmbientTemperature");
    CopyKeeps(data, flat, DataKeys, rec, "CoolSetPoint");
    CopyKeeps(data, flat, DataKeys, rec, "HeatSetPoint");
    CopyKeeps(data, flat, DataKeys, rec, "SingleSetPoint");
  }

  /** Turns a refresh reply into the flat zone record: rejects a controller that is not online,
      flattens `data.zoneDetail`, then copies the identity and status fields of `data`. */
  function ParseUpdate(update: Json): (r: Result<Record, PollError>)
    ensures r.Failure? ==> r.error == NotOnline || r.error.Malformed?
    ensures r == Failure(NotOnline) <==>
      Member(update, "Code").Some? && Member(update, "Code").value != JStr(OnlineCode)
    ensures r.Success? <==> WellShaped(update)
    ensures r.Success? ==> FlattenedFrom(update, r.value)
  {
    var code :- Field(update, "Code");
    if code != JStr(OnlineCode) then Failure(NotOnline)
    else
      var data :- Field(update, "data");
      var zoneDetail :- Field(data, "zoneDetail");
      var flat :- Flatten(zoneDetail);
      var rec :- CopyFields(data, flat, DataKeys);
      CopiedFlattens(update, flat, rec);
      Success(rec)
  }

  /** A falsy reply is never an online one: the online check alone needs a non-empty object. */
  lemma FalsyNotShaped(reply: Json)
    requires !Truthy(reply)
    ensures !WellShaped(reply)
  {
    if Member(reply, "Code").Some? {
      MemberOfTruthy(reply, "Code");
    }
  }

  /** One refresh of zone `z` at clock second `secs` with random offset `offset`: the session
      answers the request, a falsy answer gives up before parsing, and any other is parsed, so an
      online-check failure surfaces as `NotOnline` and a shape failure as `Malformed`. */
  function FetchUpdate(z: Zone, secs: int, offset: int, session: Request -> Json): (r: Result<Record, PollError>)
    requires 0 <= offset <= 999
    ensures r == Failure(NoReply) <==> !Truthy(session(UpdateRequest(z, secs, offset)))
    ensures Truthy(session(UpdateRequest(z, secs, offset))) ==>
      r == ParseUpdate(session(UpdateRequest(z, secs, offset)))
    ensures r.Success? <==> WellShaped(session(UpdateRequest(z, secs, offset)))
    ensures r.Success? ==> FlattenedFrom(session(UpdateRequest(z, secs, offset)), r.value)
  {
    var reply := session(UpdateRequest(z, secs, offset));
    if !Truthy(reply) then
      FalsyNotShaped(reply);
      Failure(NoReply)
    else
      ParseUpdate(reply)
  }

  /** The `systemName` a well-shaped reply carries in `data`. */
  ghost function SystemNameOf(update: Json): Json
    requires WellShaped(update)
  {
    assert DataKeys[4] == "systemName";
    Member(Data(update), "systemName").value
  }

  /** For a reply `ParseUpdate` accepts and the record it returns (`WellShaped` and
      `FlattenedFrom`, as its contract guarantees): a zone-detail member other than the four
      wrappers and the five `data` fields reaches the record unchanged, and is absent from it when the zone detail lacks it. */
  lemma KeptMember(update: Json, rec: Record, k: string)
    requires WellShaped(update) && FlattenedFrom(update, rec)
    requires k !in WrappedKeys && k !in DataKeys
    ensures k in rec <==> Get(ZoneDetail(update), k).Some?
    ensures k in rec ==> rec[k] == Get(ZoneDetail(update), k).value
  {
  }

  /** The system name in the record is the one `data` carries. */
  lemma CopiedSystemName(update: Json, rec: Record)
    requires WellShaped(update) && FlattenedFrom(update, rec)
    ensures "systemName" in rec && rec["systemName"] == SystemNameOf(update)
  {
    assert DataKeys[4] == "systemName";
  }

  /** The ambient temperature arrives as decimal text; the record `ParseUpdate` returns for a
      reply holds the integer that text denotes. */
  lemma AmbientFromDecimalText(update: Json, rec: Record, n: int)
    requires WellShaped(update) && FlattenedFrom(update, rec)
    requires Wrapped(ZoneDetail(update), "AmbientTemperature") == JStr(Decimal.Show(n))
    ensures rec["AmbientTemperature"] == JInt(n)
  {
    Decimal.ShowRoundTrip(n);
  }

  /** A reply whose status code is present but not the online marker makes the refresh fail with
      `NotOnline`, and with no record. */
  lemma OfflineReplyRejected(z: Zone, secs: int, offset: int, session: Request -> Json)
    requires 0 <= offset <= 999
    requires Member(session(UpdateRequest(z, secs, offset)), "Code").Some?
    requires Member(session(UpdateRequest(z, secs, offset)), "Code").value != JStr(OnlineCode)
    ensures FetchUpdate(z, secs, offset, session) == Failure(NotOnline)
  {
  }
}
