/**
 * The settings logic of MainActivity.java: the port the embedded server
 * listens on (getPort) and the shape readSettingsJson guarantees for the
 * settings object ("env" and "config" are always present).
 *
 * A JSON document is a `Json` value; an org.json JSONObject that the code
 * updates in place is a `JsonObject` holding a map from keys to values.
 */
module MainActivity {

  datatype Option<T> = None | Some(value: T)

  /** A parsed JSON value. Numbers are integral. */
  datatype Json =
    | JNull
    | JBool(b: bool)
    | JNumber(n: int)
    | JString(s: string)
    | JArray(items: seq<Json>)
    | JObject(fields: map<string, Json>)

  const DefaultPort: int := 8000
  const MinPort: int := 1
  const MaxPort: int := 65535

  const IntMin: int := -0x8000_0000
  const IntMax: int := 0x7fff_ffff
  const LongMin: int := -0x8000_0000_0000_0000
  const LongMax: int := 0x7fff_ffff_ffff_ffff

  /**
   * Number.intValue() on a JSON integer as org.json holds it. A literal that
   * fits in a long is a Long, and intValue keeps its low 32 bits as two's
   * complement; a larger literal is a Double, and intValue saturates it.
   */
  function JavaInt(n: int): (r: int)
    ensures IntMin <= r <= IntMax
    ensures LongMin <= n <= LongMax ==> (n - r) % 0x1_0000_0000 == 0
    ensures n > LongMax ==> r == IntMax
    ensures n < LongMin ==> r == IntMin
  {
    if n > LongMax then IntMax
    else if n < LongMin then IntMin
    else (n + 0x8000_0000) % 0x1_0000_0000 - 0x8000_0000
  }

  /** Numbers that already fit in a Java int keep their value. */
  lemma JavaIntOfInt(n: int)
    requires -0x8000_0000 <= n < 0x8000_0000
    ensures JavaInt(n) == n
  {
  }

  /** JSONObject.optJSONObject(key): the value when it is an object, null otherwise. */
  function OptJsonObject(obj: map<string, Json>, key: string): Option<map<string, Json>> {
    if key in obj && obj[key].JObject? then Some(obj[key].fields) else None
  }

  /** JSONObject.optInt(key, fallback): the number under key as a Java int, or the fallback. */
  function OptInt(obj: map<string, Json>, key: string, fallback: int): int {
    if key in obj && obj[key].JNumber? then JavaInt(obj[key].n) else fallback
  }

  /** The settings name port p: "config" is an object whose "port" is a number that reads as p. */
  predicate SetsPort(settings: map<string, Json>, p: int) {
    && "config" in settings
    && settings["config"].JObject?
    && "port" in settings["config"].fields
    && settings["config"].fields["port"].JNumber?
    && JavaInt(settings["config"].fields["port"].n) == p
  }

  /**
   * getPort: the configured port when it is a valid TCP port, 8000 in every
   * other case (no config object, no numeric port, or out of range).
   */
  function GetPort(settings: map<string, Json>): (port: int)
    ensures MinPort <= port <= MaxPort
    ensures forall p :: SetsPort(settings, p) && MinPort <= p <= MaxPort ==> port == p
    ensures port == DefaultPort || SetsPort(settings, port)
  {
    var config := OptJsonObject(settings, "config");
    var port := if config.Some? then OptInt(config.value, "port", DefaultPort) else DefaultPort;
    if port < MinPort || port > MaxPort then DefaultPort else port
  }

  /** A port number too large for a long reads as Integer.MAX_VALUE, so getPort falls back to 8000. */
  lemma HugePortFallsBack(n: int)
    requires n > LongMax
    ensures GetPort(map["config" := JObject(map["port" := JNumber(n)])]) == DefaultPort
  {
  }

  /** An empty JSON object, what `new JSONObject()` creates. */
  const EmptyObject: Json := JObject(map[])

  /**
   * The settings object after readSettingsJson's normalisation: "env" and
   * "config" are both present, missing ones added as empty objects, and
   * nothing that was there is changed.
   */
  function Normalized(parsed: map<string, Json>): (settings: map<string, Json>)
    ensures "env" in settings && "config" in settings
    ensures forall k :: k in parsed ==> k in settings && settings[k] == parsed[k]
    ensures forall k :: k in settings && k !in parsed ==> (k == "env" || k == "config") && settings[k] == EmptyObject
  {
    var withEnv := if "env" in parsed then parsed else parsed["env" := EmptyObject];
    if "config" in withEnv then withEnv else withEnv["config" := EmptyObject]
  }

  /** Normalising twice is normalising once. */
  lemma NormalizedIdempotent(parsed: map<string, Json>)
    ensures Normalized(Normalized(parsed)) == Normalized(parsed)
  {
  }

  /** Normalisation never changes the port: an added "config" is empty and yields the default. */
  lemma NormalizedKeepsPort(parsed: map<string, Json>)
    ensures GetPort(Normalized(parsed)) == GetPort(parsed)
  {
  }

  /** The settings readSettingsJson falls back to: {"env":{},"config":{"port":8000,"listen":false}}. */
  function FallbackSettings(): map<string, Json> {
    map["env" := EmptyObject,
        "config" := JObject(map["port" := JNumber(8000), "listen" := JBool(false)])]
  }

  /** The fallback is already normalised and asks for the default port. */
  lemma FallbackSettingsSound()
    ensures Normalized(FallbackSettings()) == FallbackSettings()
    ensures GetPort(FallbackSettings()) == DefaultPort
  {
  }

  /** What reading the settings file finds. */
  datatype SettingsFile =
    | Missing                                // the file does not exist
    | Unreadable                             // reading or parsing it threw
    | Parsed(obj: map<string, Json>)         // it parsed as a JSON object

  /** An org.json JSONObject, updated in place by put. */
  class JsonObject {
    var fields: map<string, Json>

    constructor (fields: map<string, Json>)
      ensures this.fields == fields
    {
      this.fields := fields;
    }

    /** JSONObject.has */
    predicate Has(key: string)
      reads this
    {
      key in fields
    }

    /** JSONObject.put */
    method Put(key: string, value: Json)
      modifies this
      ensures fields == old(fields)[key := value]
    {
      fields := fields[key := value];
    }
  }

  /** The in-place normalisation of readSettingsJson: put an empty object under each missing key. */
  method NormalizeSettings(parsed: JsonObject)
    modifies parsed
    ensures parsed.fields == Normalized(old(parsed.fields))
  {
    if !parsed.Has("env") {
      parsed.Put("env", EmptyObject);
    }
    if !parsed.Has("config") {
      parsed.Put("config", EmptyObject);
    }
  }

  /**
   * readSettingsJson, given what reading the file found: the fallback when
   * the file is missing or does not parse, the normalised object otherwise.
   */
  method ReadSettingsJson(file: SettingsFile) returns (settings: JsonObject)
    ensures fresh(settings)
    ensures "env" in settings.fields && "config" in settings.fields
    ensures file.Parsed? ==> settings.fields == Normalized(file.obj)
    ensures !file.Parsed? ==> settings.fields == FallbackSettings()
  {
    match file
    case Missing =>
      settings := new JsonObject(FallbackSettings());
    case Unreadable =>
      settings := new JsonObject(FallbackSettings());
    case Parsed(obj) =>
      settings := new JsonObject(obj);
      NormalizeSettings(settings);
  }
}
