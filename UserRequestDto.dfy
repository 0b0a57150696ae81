/**
 * The incoming user/request record: twenty-one fixed string attributes plus a
 * custom-field map, and the string-keyed lookup the evaluator reads them through.
 */
module UserRequests {
  import opened Wrappers
  import opened FilterFieldTypes

  /** The record's fixed attributes, one per field of the Java bean. */
  datatype RecordField =
    | Smid | Country | OperatingSystem | ClientVersion | Browser | BrowserVersion
    | DeviceType | Language | Timezone | UserAgent | IpAddress | SessionId
    | UserId | DeviceId | AppVersion | Platform | Carrier | NetworkType
    | ScreenResolution | DeviceModel | OsVersion

  /** The key under which getFieldValue's switch returns the attribute. */
  function Key(f: RecordField): string {
    match f
    case Smid => "SMID"
    case Country => "COUNTRY"
    case OperatingSystem => "OPERATING_SYSTEM"
    case ClientVersion => "CLIENT_VERSION"
    case Browser => "BROWSER"
    case BrowserVersion => "BROWSER_VERSION"
    case DeviceType => "DEVICE_TYPE"
    case Language => "LANGUAGE"
    case Timezone => "TIMEZONE"
    case UserAgent => "USER_AGENT"
    case IpAddress => "IP_ADDRESS"
    case SessionId => "SESSION_ID"
    case UserId => "USER_ID"
    case DeviceId => "DEVICE_ID"
    case AppVersion => "APP_VERSION"
    case Platform => "PLATFORM"
    case Carrier => "CARRIER"
    case NetworkType => "NETWORK_TYPE"
    case ScreenResolution => "SCREEN_RESOLUTION"
    case DeviceModel => "DEVICE_MODEL"
    case OsVersion => "OS_VERSION"
  }

  /** The fixed attribute a key selects, or None when the switch falls through to its default. */
  function KeyToField(key: string): (r: Option<RecordField>)
    ensures r.Some? ==> Key(r.value) == key
    ensures r.None? ==> forall f :: Key(f) != key
  {
    match key
    case "SMID" => Some(Smid)
    case "COUNTRY" => Some(Country)
    case "OPERATING_SYSTEM" => Some(OperatingSystem)
    case "CLIENT_VERSION" => Some(ClientVersion)
    case "BROWSER" => Some(Browser)
    case "BROWSER_VERSION" => Some(BrowserVersion)
    case "DEVICE_TYPE" => Some(DeviceType)
    case "LANGUAGE" => Some(Language)
    case "TIMEZONE" => Some(Timezone)
    case "USER_AGENT" => Some(UserAgent)
    case "IP_ADDRESS" => Some(IpAddress)
    case "SESSION_ID" => Some(SessionId)
    case "USER_ID" => Some(UserId)
    case "DEVICE_ID" => Some(DeviceId)
    case "APP_VERSION" => Some(AppVersion)
    case "PLATFORM" => Some(Platform)
    case "CARRIER" => Some(Carrier)
    case "NETWORK_TYPE" => Some(NetworkType)
    case "SCREEN_RESOLUTION" => Some(ScreenResolution)
    case "DEVICE_MODEL" => Some(DeviceModel)
    case "OS_VERSION" => Some(OsVersion)
    case _ => None
  }

  /** A snapshot of the bean's state; None stands for a null field. */
  datatype UserRecord = UserRecord(
    smid: Option<string>,
    country: Option<string>,
    operatingSystem: Option<string>,
    clientVersion: Option<string>,
    browser: Option<string>,
    browserVersion: Option<string>,
    deviceType: Option<string>,
    language: Option<string>,
    timezone: Option<string>,
    userAgent: Option<string>,
    ipAddress: Option<string>,
    sessionId: Option<string>,
    userId: Option<string>,
    deviceId: Option<string>,
    appVersion: Option<string>,
    platform: Option<string>,
    carrier: Option<string>,
    networkType: Option<string>,
    screenResolution: Option<string>,
    deviceModel: Option<string>,
    osVersion: Option<string>,
    customFields: Option<map<string, string>>)

  /** The state left by the no-argument constructor: every field null. */
  const EmptyRecord: UserRecord :=
    UserRecord(None, None, None, None, None, None, None, None, None, None, None, None, None, None, None, None, None, None, None, None, None, None)

  /** The value of one fixed attribute. */
  function Get(u: UserRecord, f: RecordField): Option<string> {
    match f
    case Smid => u.smid
    case Country => u.country
    case OperatingSystem => u.operatingSystem
    case ClientVersion => u.clientVersion
    case Browser => u.browser
    case BrowserVersion => u.browserVersion
    case DeviceType => u.deviceType
    case Language => u.language
    case Timezone => u.timezone
    case UserAgent => u.userAgent
    case IpAddress => u.ipAddress
    case SessionId => u.sessionId
    case UserId => u.userId
    case DeviceId => u.deviceId
    case AppVersion => u.appVersion
    case Platform => u.platform
    case Carrier => u.carrier
    case NetworkType => u.networkType
    case ScreenResolution => u.screenResolution
    case DeviceModel => u.deviceModel
    case OsVersion => u.osVersion
  }

  /** The record after the setter of one fixed attribute stored v. */
  function Set(u: UserRecord, f: RecordField, v: Option<string>): (r: UserRecord)
    ensures Get(r, f) == v
    ensures forall g :: g != f ==> Get(r, g) == Get(u, g)
    ensures r.customFields == u.customFields
  {
    match f
    case Smid => u.(smid := v)
    case Country => u.(country := v)
    case OperatingSystem => u.(operatingSystem := v)
    case ClientVersion => u.(clientVersion := v)
    case Browser => u.(browser := v)
    case BrowserVersion => u.(browserVersion := v)
    case DeviceType => u.(deviceType := v)
    case Language => u.(language := v)
    case Timezone => u.(timezone := v)
    case UserAgent => u.(userAgent := v)
    case IpAddress => u.(ipAddress := v)
    case SessionId => u.(sessionId := v)
    case UserId => u.(userId := v)
    case DeviceId => u.(deviceId := v)
    case AppVersion => u.(appVersion := v)
    case Platform => u.(platform := v)
    case Carrier => u.(carrier := v)
    case NetworkType => u.(networkType := v)
    case ScreenResolution => u.(screenResolution := v)
    case DeviceModel => u.(deviceModel := v)
    case OsVersion => u.(osVersion := v)
  }

  /** The custom-field fallback of the switch: customFields.get(key), or null without a map. */
  function CustomValue(u: UserRecord, key: string): Option<string> {
    match u.customFields
    case None => None
    case Some(m) => if key in m then Some(m[key]) else None
  }

  /** getFieldValue(key): an exact, case-sensitive switch over the fixed keys, else the custom fields. */
  function FieldValue(u: UserRecord, key: string): (r: Option<string>)
    ensures forall f :: Key(f) == key ==> r == Get(u, f)
    ensures (forall f :: Key(f) != key) ==> r == CustomValue(u, key)
  {
    KeysDistinct();
    match KeyToField(key)
    case Some(f) => Get(u, f)
    case None => CustomValue(u, key)
  }

  /** No two attributes share a key. */
  lemma KeysDistinct()
    ensures forall f, g :: Key(f) == Key(g) ==> f == g
  {
    forall f, g | Key(f) == Key(g)
      ensures f == g
    {
      KeyToFieldOfKey(f);
      KeyToFieldOfKey(g);
    }
  }

  /** Each fixed key returns its own attribute. */
  lemma FixedKeyReadsField(u: UserRecord, f: RecordField)
    ensures FieldValue(u, Key(f)) == Get(u, f)
  {
    KeyToFieldOfKey(f);
  }

  /** The switch maps each fixed key back to its attribute. */
  lemma KeyToFieldOfKey(f: RecordField)
    ensures KeyToField(Key(f)) == Some(f)
  {
    match f
    case Smid =>
    case Country =>
    case OperatingSystem =>
    case ClientVersion =>
    case Browser =>
    case BrowserVersion =>
    case DeviceType =>
    case Language =>
    case Timezone =>
    case UserAgent =>
    case IpAddress =>
    case SessionId =>
    case UserId =>
    case DeviceId =>
    case AppVersion =>
    case Platform =>
    case Carrier =>
    case NetworkType =>
    case ScreenResolution =>
    case DeviceModel =>
    case OsVersion =>
  }

  /** A key outside the switch (a lower-case spelling included) reads the custom fields. */
  lemma OtherKeyReadsCustomFields(u: UserRecord, key: string)
    requires forall f :: Key(f) != key
    ensures FieldValue(u, key) == CustomValue(u, key)
    ensures u.customFields.None? ==> FieldValue(u, key) == None
  {
  }

  /** After setX(v) the key of X reads v and every other key reads what it read before. */
  lemma SetThenRead(u: UserRecord, f: RecordField, v: Option<string>, key: string)
    ensures FieldValue(Set(u, f, v), Key(f)) == v
    ensures key != Key(f) ==> FieldValue(Set(u, f, v), key) == FieldValue(u, key)
  {
    FixedKeyReadsField(Set(u, f, v), f);
    if key != Key(f) {
      match KeyToField(key)
      case None =>
      case Some(g) => assert g != f;
    }
  }

  /** After setCustomFields(m) the fixed keys are unchanged and every other key reads m. */
  lemma SetCustomFieldsThenRead(u: UserRecord, m: Option<map<string, string>>, key: string)
    ensures KeyToField(key).Some? ==> FieldValue(u.(customFields := m), key) == FieldValue(u, key)
    ensures KeyToField(key).None? ==>
      FieldValue(u.(customFields := m), key) == (if m.Some? && key in m.value then Some(m.value[key]) else None)
  {
  }

  /** A freshly constructed record returns null for every key. */
  lemma EmptyRecordReadsNull(key: string)
    ensures FieldValue(EmptyRecord, key) == None
  {
  }

  /** Of the nine field types only SMID, COUNTRY, OPERATING_SYSTEM, CLIENT_VERSION and BROWSER
      name a fixed attribute; the other four are looked up in the custom fields. */
  lemma FieldTypeKeys(t: FilterFieldType)
    ensures KeyToField(Name(t)).Some? <==> t in {SMID, COUNTRY, OPERATING_SYSTEM, CLIENT_VERSION, BROWSER}
    ensures t == SMID ==> KeyToField(Name(t)) == Some(Smid)
    ensures t == COUNTRY ==> KeyToField(Name(t)) == Some(Country)
    ensures t == OPERATING_SYSTEM ==> KeyToField(Name(t)) == Some(OperatingSystem)
    ensures t == CLIENT_VERSION ==> KeyToField(Name(t)) == Some(ClientVersion)
    ensures t == BROWSER ==> KeyToField(Name(t)) == Some(Browser)
  {
  }

  /** The mutable bean. Its fields are the record's; Snapshot() is its current value. */
  class UserRequestDto {
    var smid: Option<string>
    var country: Option<string>
    var operatingSystem: Option<string>
    var clientVersion: Option<string>
    var browser: Option<string>
    var browserVersion: Option<string>
    var deviceType: Option<string>
    var language: Option<string>
    var timezone: Option<string>
    var userAgent: Option<string>
    var ipAddress: Option<string>
    var sessionId: Option<string>
    var userId: Option<string>
    var deviceId: Option<string>
    var appVersion: Option<string>
    var platform: Option<string>
    var carrier: Option<string>
    var networkType: Option<string>
    var screenResolution: Option<string>
    var deviceModel: Option<string>
    var osVersion: Option<string>
    var customFields: Option<map<string, string>>

    function Snapshot(): UserRecord
      reads this
    {
      UserRecord(smid, country, operatingSystem, clientVersion, browser, browserVersion, deviceType, language, timezone, userAgent, ipAddress, sessionId, userId, deviceId, appVersion, platform, carrier, networkType, screenResolution, deviceModel, osVersion,
        customFields)
    }

    constructor ()
      ensures Snapshot() == EmptyRecord
    {
      smid := None;
      country := None;
      operatingSystem := None;
      clientVersion := None;
      browser := None;
      browserVersion := None;
      deviceType := None;
      language := None;
      timezone := None;
      userAgent := None;
      ipAddress := None;
      sessionId := None;
      userId := None;
      deviceId := None;
      appVersion := None;
      platform := None;
      carrier := None;
      networkType := None;
      screenResolution := None;
      deviceModel := None;
      osVersion := None;
      customFields := None;
    }

    method SetSmid(v: Option<string>)
      modifies this
      ensures Snapshot() == Set(old(Snapshot()), Smid, v)
    {
      smid := v;
    }

    method SetCountry(v: Option<string>)
      modifies this
      ensures Snapshot() == Set(old(Snapshot()), Country, v)
    {
      country := v;
    }

    method SetOperatingSystem(v: Option<string>)
      modifies this
      ensures Snapshot() == Set(old(Snapshot()), OperatingSystem, v)
    {
      operatingSystem := v;
    }

    method SetClientVersion(v: Option<string>)
      modifies this
      ensures Snapshot() == Set(old(Snapshot()), ClientVersion, v)
    {
      clientVersion := v;
    }

    method SetBrowser(v: Option<string>)
      modifies this
      ensures Snapshot() == Set(old(Snapshot()), Browser, v)
    {
      browser := v;
    }

    method SetBrowserVersion(v: Option<string>)
      modifies this
      ensures Snapshot() == Set(old(Snapshot()), BrowserVersion, v)
    {
      browserVersion := v;
    }

    method SetDeviceType(v: Option<string>)
      modifies this
      ensures Snapshot() == Set(old(Snapshot()), DeviceType, v)
    {
      deviceType := v;
    }

    method SetLanguage(v: Option<string>)
      modifies this
      ensures Snapshot() == Set(old(Snapshot()), Language, v)
    {
      language := v;
    }

    method SetTimezone(v: Option<string>)
      modifies this
      ensures Snapshot() == Set(old(Snapshot()), Timezone, v)
    {
      timezone := v;
    }

    method SetUserAgent(v: Option<string>)
      modifies this
      ensures Snapshot() == Set(old(Snapshot()), UserAgent, v)
    {
      userAgent := v;
    }

    method SetIpAddress(v: Option<string>)
      modifies this
      ensures Snapshot() == Set(old(Snapshot()), IpAddress, v)
    {
      ipAddress := v;
    }

    method SetSessionId(v: Option<string>)
      modifies this
      ensures Snapshot() == Set(old(Snapshot()), SessionId, v)
    {
      sessionId := v;
    }

    method SetUserId(v: Option<string>)
      modifies this
      ensures Snapshot() == Set(old(Snapshot()), UserId, v)
    {
      userId := v;
    }

    method SetDeviceId(v: Option<string>)
      modifies this
      ensures Snapshot() == Set(old(Snapshot()), DeviceId, v)
    {
      deviceId := v;
    }

    method SetAppVersion(v: Option<string>)
      modifies this
      ensures Snapshot() == Set(old(Snapshot()), AppVersion, v)
    {
      appVersion := v;
    }

    method SetPlatform(v: Option<string>)
      modifies this
      ensures Snapshot() == Set(old(Snapshot()), Platform, v)
    {
      platform := v;
    }

    method SetCarrier(v: Option<string>)
      modifies this
      ensures Snapshot() == Set(old(Snapshot()), Carrier, v)
    {
      carrier := v;
    }

    method SetNetworkType(v: Option<string>)
      modifies this
      ensures Snapshot() == Set(old(Snapshot()), NetworkType, v)
    {
      networkType := v;
    }

    method SetScreenResolution(v: Option<string>)
      modifies this
      ensures Snapshot() == Set(old(Snapshot()), ScreenResolution, v)
    {
      screenResolution := v;
    }

    method SetDeviceModel(v: Option<string>)
      modifies this
      ensures Snapshot() == Set(old(Snapshot()), DeviceModel, v)
    {
      deviceModel := v;
    }

    method SetOsVersion(v: Option<string>)
      modifies this
      ensures Snapshot() == Set(old(Snapshot()), OsVersion, v)
    {
      osVersion := v;
    }

    method SetCustomFields(m: Option<map<string, string>>)
      modifies this
      ensures Snapshot() == old(Snapshot()).(customFields := m)
    {
      customFields := m;
    }
  }
}
