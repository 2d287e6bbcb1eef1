/** What crosses the boundary between JavaScript and a platform bridge
    (src/NativeSdkReactNative.ts): the flat result record coming back and the
    plain maps going in. */
module Wire {
  import opened Wrappers
  import opened Types

  /** `VerificationResultJS`: the flat record a bridge resolves with; `tag` is its `type` key. */
  datatype ResultJS = ResultJS(
    tag: string,
    sessionId: Option<string>,
    status: Option<string>,
    errorType: Option<string>,
    errorMessage: Option<string>)

  /** A freshly created native map holding only its `type` key. */
  function Tagged(tag: string): ResultJS {
    ResultJS(tag, None, None, None, None)
  }

  const ResultTags: set<string> := {"completed", "cancelled", "failed"}

  /** The shape both bridges promise: one of three tags, a completed record carries its
      session, a failed record carries its error. */
  predicate WellFormed(w: ResultJS) {
    && w.tag in ResultTags
    && (w.tag == "completed" ==> w.sessionId.Some? && w.status.Some?)
    && (w.tag == "failed" ==> w.errorType.Some? && w.errorMessage.Some?)
  }

  /** A value of a map handed to a bridge (ReadableMap on Android, NSDictionary on iOS). */
  datatype Value = VNull | VBool(b: bool) | VStr(s: string)

  type Dict = map<string, Value>

  /** The string stored under `key`, if any: Swift's `dict[key] as? String`. */
  function StringAt(d: Dict, key: string): Option<string> {
    if key in d && d[key].VStr? then Some(d[key].s) else None
  }

  /** The boolean stored under `key`, if any: Swift's `dict[key] as? Bool`. */
  function BoolAt(d: Dict, key: string): Option<bool> {
    if key in d && d[key].VBool? then Some(d[key].b) else None
  }

  function StringEntry(key: string, v: Option<string>): Dict {
    if v.Some? then map[key := VStr(v.value)] else map[]
  }

  function BoolEntry(key: string, v: Option<bool>): Dict {
    if v.Some? then map[key := VBool(v.value)] else map[]
  }

  const ConfigKeys: set<string> := {"languageCode", "customIntroScreen", "fontFamily", "loggingEnabled"}

  /** A configuration object as the bridge receives it: a property left undefined is no key at all. */
  function ConfigDict(c: Config): (d: Dict)
    ensures d.Keys <= ConfigKeys
    ensures StringAt(d, "languageCode") == c.languageCode
    ensures BoolAt(d, "customIntroScreen") == c.customIntroScreen
    ensures StringAt(d, "fontFamily") == c.fontFamily
    ensures BoolAt(d, "loggingEnabled") == c.loggingEnabled
    ensures "languageCode" in d ==> d["languageCode"].VStr?
    ensures "customIntroScreen" in d ==> d["customIntroScreen"].VBool?
    ensures "fontFamily" in d ==> d["fontFamily"].VStr?
    ensures "loggingEnabled" in d ==> d["loggingEnabled"].VBool?
  {
    StringEntry("languageCode", c.languageCode)
    + BoolEntry("customIntroScreen", c.customIntroScreen)
    + StringEntry("fontFamily", c.fontFamily)
    + BoolEntry("loggingEnabled", c.loggingEnabled)
  }

  /** A contact-details object as the bridge receives it. */
  function ContactDict(c: ContactDetails): (d: Dict)
    ensures forall k :: k in ContactStringKeys ==> StringAt(d, k) == ContactField(c, k)
    ensures BoolAt(d, "sendNotificationEmails") == c.sendNotificationEmails
    ensures forall k :: k in d ==> (k in ContactStringKeys && d[k].VStr?) || (k == "sendNotificationEmails" && d[k].VBool?)
  {
    StringEntry("email", c.email)
    + BoolEntry("sendNotificationEmails", c.sendNotificationEmails)
    + StringEntry("emailLang", c.emailLang)
    + StringEntry("phone", c.phone)
  }

  /** The map holding `field(k)` under each key `k` of `keys` whose field is defined. */
  function StringEntries(keys: seq<string>, field: string -> Option<string>): (d: Dict)
    ensures forall k :: k in keys ==> StringAt(d, k) == field(k)
    ensures forall k :: k in d ==> k in keys && d[k].VStr?
    decreases |keys|
  {
    if |keys| == 0 then map[]
    else StringEntry(keys[0], field(keys[0])) + StringEntries(keys[1..], field)
  }

  /** An expected-details object as the bridge receives it. */
  function ExpectedDict(e: ExpectedDetails): (d: Dict)
    ensures forall k :: k in ExpectedKeys ==> StringAt(d, k) == ExpectedField(e, k)
    ensures forall k :: k in d ==> k in ExpectedKeys && d[k].VStr?
  {
    StringEntries(ExpectedKeys, k => ExpectedField(e, k))
  }
}
