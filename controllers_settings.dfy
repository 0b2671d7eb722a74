/**
 * `SettingsController` (backend): the Binance API keys, the general system
 * settings, the notification preferences and the push token of the signed-in
 * user, and the latest audit rows.
 *
 * The credential and settings tables are fields of `SettingsDb` that the
 * actions update in place. Encryption and decryption are functions passed
 * in, and `now` is the clock. The audit entry and the notification the save
 * actions send afterwards are not part of this model.
 */
module SettingsControllers {
  import opened Common
  import opened Listing
  import opened Text
  import AuditLogServices

  /** The only exchange credentials are stored for. */
  const Exchange: string := "Binance"

  /** One row of `ExchangeCredentials`; `apiKey` and `apiSecret` hold what was stored. */
  datatype ExchangeCredential = ExchangeCredential(
    userId: string,
    exchangeName: string,
    apiKey: string,
    apiSecret: string,
    createdAt: int,
    updatedAt: Option<int>)

  /** The seven notification switches, as `NotificationSettingsDto` carries them. */
  datatype NotificationSettings = NotificationSettings(
    buySignals: bool,
    sellSignals: bool,
    stopLoss: bool,
    takeProfit: bool,
    general: bool,
    errors: bool,
    push: bool)

  /** One row of `SystemSettings`. */
  datatype SystemSetting = SystemSetting(
    userId: string,
    telegramBotToken: Option<string>,
    telegramChatId: Option<string>,
    enableTelegramNotifications: bool,
    globalStopLossPercent: real,
    maxActiveBots: int,
    defaultTimeframe: string,
    defaultAmount: real,
    notifications: NotificationSettings,
    fcmToken: Option<string>,
    updatedAt: Option<int>)

  /** The body of a key-saving request. */
  datatype ApiKeyDto = ApiKeyDto(apiKey: string, secretKey: string)

  datatype Response<T> = Unauthorized | BadRequest(messages: seq<string>) | Ok(value: T)

  /** Every switch on: what a user without a settings row is shown. */
  const AllNotificationsOn: NotificationSettings := NotificationSettings(true, true, true, true, true, true, true)

  // ------------------------------------------------------------ masking

  /**
   * `GetApiKeys`: a key longer than 8 characters shows its first 4 and last 4
   * characters around "****"; any shorter key shows as "****".
   */
  function MaskKey(key: string): (r: string)
    ensures |key| > 8 ==> |r| == 12 && r[..4] == key[..4] && r[4..8] == "****" && r[8..] == key[|key| - 4..]
    ensures |key| <= 8 ==> r == "****"
  {
    if |key| > 8 then key[..4] + "****" + key[|key| - 4..] else "****"
  }

  /** The mask shows nothing of the middle of a key: keys that share their first and last four characters look alike. */
  lemma MaskHidesMiddle(a: string, b: string)
    requires |a| > 8 && |b| > 8
    requires a[..4] == b[..4] && a[|a| - 4..] == b[|b| - 4..]
    ensures MaskKey(a) == MaskKey(b)
  {
  }

  /** A key of more than 12 characters is never shown whole. */
  lemma MaskNeverWholeKey(key: string)
    requires |key| > 12
    ensures MaskKey(key) != key
  {
    assert |MaskKey(key)| == 12;
  }

  // ------------------------------------------------------------ request validation

  /**
   * `[Required]` on a string: present, and not empty or white space only.
   */
  predicate Required(s: string)
  {
    s != "" && !IsBlank(s)
  }

  /** `[StringLength(512, MinimumLength = 8)]`. */
  predicate LengthInRange(s: string)
  {
    8 <= |s| <= 512
  }

  /** The validation messages of one field, in attribute order. */
  function FieldErrors(s: string, required: string, length: string): (r: seq<string>)
    ensures r == [] <==> Required(s) && LengthInRange(s)
  {
    (if Required(s) then [] else [required]) + (if LengthInRange(s) then [] else [length])
  }

  /** The model-validation messages of an `ApiKeyDto`, checked before the action runs. */
  function ApiKeyDtoErrors(dto: ApiKeyDto): (r: seq<string>)
    ensures r == [] <==> Required(dto.apiKey) && LengthInRange(dto.apiKey) && Required(dto.secretKey) && LengthInRange(dto.secretKey)
  {
    FieldErrors(dto.apiKey, "API Key zorunludur.", "API Key en az 8 karakter olmalıdır.") +
    FieldErrors(dto.secretKey, "Secret Key zorunludur.", "Secret Key en az 8 karakter olmalıdır.")
  }

  /** A body that passes validation has two non-empty keys, so the action's own emptiness check never fires after it. */
  lemma ValidDtoHasKeys(dto: ApiKeyDto)
    requires ApiKeyDtoErrors(dto) == []
    ensures dto.apiKey != "" && dto.secretKey != ""
    ensures 8 <= |dto.apiKey| <= 512 && 8 <= |dto.secretKey| <= 512
  {
  }

  /** `string.IsNullOrWhiteSpace`. */
  predicate NullOrWhiteSpace(s: Option<string>)
  {
    s.None? || IsBlank(s.value)
  }

  // ------------------------------------------------------------ lookups

  predicate IsUsersCredential(c: ExchangeCredential, userId: string)
  {
    c.userId == userId && c.exchangeName == Exchange
  }

  /** `FirstOrDefault(x => x.UserId == userId && x.ExchangeName == "Binance")`, as an index. */
  function FindCredential(creds: seq<ExchangeCredential>, userId: string): (r: Option<nat>)
    ensures r.Some? ==> r.value < |creds| && IsUsersCredential(creds[r.value], userId)
    ensures r.Some? ==> forall j :: 0 <= j < r.value ==> !IsUsersCredential(creds[j], userId)
    ensures r.None? ==> forall j :: 0 <= j < |creds| ==> !IsUsersCredential(creds[j], userId)
  {
    if |creds| == 0 then None
    else if IsUsersCredential(creds[0], userId) then Some(0)
    else
      var rest := FindCredential(creds[1..], userId);
      if rest.Some? then Some(rest.value + 1) else None
  }

  /** `FirstOrDefault(x => x.UserId == userId)` over the settings rows, as an index. */
  function FindSetting(settings: seq<SystemSetting>, userId: string): (r: Option<nat>)
    ensures r.Some? ==> r.value < |settings| && settings[r.value].userId == userId
    ensures r.Some? ==> forall j :: 0 <= j < r.value ==> settings[j].userId != userId
    ensures r.None? ==> forall j :: 0 <= j < |settings| ==> settings[j].userId != userId
  {
    if |settings| == 0 then None
    else if settings[0].userId == userId then Some(0)
    else
      var rest := FindSetting(settings[1..], userId);
      if rest.Some? then Some(rest.value + 1) else None
  }

  /** At most one Binance credential per user. */
  predicate OneCredentialPerUser(creds: seq<ExchangeCredential>)
  {
    forall i, j :: 0 <= i < j < |creds| && creds[i].exchangeName == Exchange && creds[j].exchangeName == Exchange ==>
      creds[i].userId != creds[j].userId
  }

  /** At most one settings row per user. */
  predicate OneSettingPerUser(settings: seq<SystemSetting>)
  {
    forall i, j :: 0 <= i < j < |settings| ==> settings[i].userId != settings[j].userId
  }

  /** The credential row after a save: the found one with new keys, or a new row. */
  function SavedCredential(existing: Option<ExchangeCredential>, userId: string, apiKey: string, apiSecret: string, now: int): (r: ExchangeCredential)
    requires existing.Some? ==> IsUsersCredential(existing.value, userId)
    ensures IsUsersCredential(r, userId) && r.apiKey == apiKey && r.apiSecret == apiSecret
    ensures existing.Some? ==> r.createdAt == existing.value.createdAt && r.updatedAt == Some(now)
  {
    if existing.Some? then existing.value.(apiKey := apiKey, apiSecret := apiSecret, updatedAt := Some(now))
    else ExchangeCredential(userId, Exchange, apiKey, apiSecret, now, None)
  }

  /**
   * The credential table after saving `apiKey`/`apiSecret` for `userId`: the
   * user's row is updated in place, or a row is appended when there is none.
   */
  function UpsertCredential(creds: seq<ExchangeCredential>, userId: string, apiKey: string, apiSecret: string, now: int): seq<ExchangeCredential>
  {
    var found := FindCredential(creds, userId);
    if found.Some? then creds[found.value := SavedCredential(Some(creds[found.value]), userId, apiKey, apiSecret, now)]
    else creds + [SavedCredential(None, userId, apiKey, apiSecret, now)]
  }

  /**
   * A save leaves exactly one credential for the user, holding the new keys;
   * every other user's rows are untouched, and at most one row is added.
   */
  lemma UpsertCredentialFacts(creds: seq<ExchangeCredential>, userId: string, apiKey: string, apiSecret: string, now: int)
    requires OneCredentialPerUser(creds)
    ensures var r := UpsertCredential(creds, userId, apiKey, apiSecret, now);
      OneCredentialPerUser(r) &&
      FindCredential(r, userId).Some? &&
      r[FindCredential(r, userId).value].apiKey == apiKey &&
      r[FindCredential(r, userId).value].apiSecret == apiSecret &&
      |creds| <= |r| <= |creds| + 1 &&
      (forall i :: 0 <= i < |creds| && !IsUsersCredential(creds[i], userId) ==> r[i] == creds[i])
  {
    var r := UpsertCredential(creds, userId, apiKey, apiSecret, now);
    var found := FindCredential(creds, userId);
    if found.Some? {
      assert r[found.value].userId == userId;
      assert FindCredential(r, userId) == found by {
        FindCredentialFirst(r, userId, found.value);
      }
    } else {
      assert FindCredential(r, userId) == Some(|creds|) by {
        FindCredentialFirst(r, userId, |creds|);
      }
    }
  }

  lemma FindCredentialFirst(creds: seq<ExchangeCredential>, userId: string, k: nat)
    requires k < |creds| && IsUsersCredential(creds[k], userId)
    requires forall j :: 0 <= j < k ==> !IsUsersCredential(creds[j], userId)
    ensures FindCredential(creds, userId) == Some(k)
  {
  }

  /** The settings row after an update, or a new row when the user has none. */
  function UpsertSetting(settings: seq<SystemSetting>, userId: string, update: SystemSetting -> SystemSetting, inserted: SystemSetting): seq<SystemSetting>
  {
    var found := FindSetting(settings, userId);
    if found.Some? then settings[found.value := update(settings[found.value])] else settings + [inserted]
  }

  /**
   * An upsert that keeps the user id of the row it changes, and inserts a
   * row for the user, keeps one settings row per user, and that row is the
   * updated or the inserted one.
   */
  lemma UpsertSettingFacts(settings: seq<SystemSetting>, userId: string, update: SystemSetting -> SystemSetting, inserted: SystemSetting)
    requires OneSettingPerUser(settings)
    requires forall s :: update(s).userId == s.userId
    requires inserted.userId == userId
    ensures var r := UpsertSetting(settings, userId, update, inserted);
      var found := FindSetting(settings, userId);
      OneSettingPerUser(r) &&
      FindSetting(r, userId).Some? &&
      r[FindSetting(r, userId).value] == (if found.Some? then update(settings[found.value]) else inserted) &&
      (forall i :: 0 <= i < |settings| && settings[i].userId != userId ==> r[i] == settings[i])
  {
    var r := UpsertSetting(settings, userId, update, inserted);
    var found := FindSetting(settings, userId);
    if found.Some? {
      assert r[found.value].userId == userId;
      FindSettingFirst(r, userId, found.value);
    } else {
      FindSettingFirst(r, userId, |settings|);
    }
  }

  lemma FindSettingFirst(settings: seq<SystemSetting>, userId: string, k: nat)
    requires k < |settings| && settings[k].userId == userId
    requires forall j :: 0 <= j < k ==> settings[j].userId != userId
    ensures FindSetting(settings, userId) == Some(k)
  {
  }

  // ------------------------------------------------------------ updates of a settings row

  /** `SaveGeneralSettings` on an existing row: the seven general fields and the update time. */
  function GeneralUpdate(model: SystemSetting, now: int): SystemSetting -> SystemSetting
  {
    (s: SystemSetting) => s.(telegramBotToken := model.telegramBotToken, telegramChatId := model.telegramChatId,
                             enableTelegramNotifications := model.enableTelegramNotifications,
                             globalStopLossPercent := model.globalStopLossPercent, maxActiveBots := model.maxActiveBots,
                             defaultTimeframe := model.defaultTimeframe, defaultAmount := model.defaultAmount,
                             updatedAt := Some(now))
  }

  /** `UpdateNotificationSettings` on an existing row: the seven switches and the update time. */
  function NotificationUpdate(model: NotificationSettings, now: int): SystemSetting -> SystemSetting
  {
    (s: SystemSetting) => s.(notifications := model, updatedAt := Some(now))
  }

  /** `UpdateFcmToken` on an existing row: the token and the update time. */
  function TokenUpdate(token: string, now: int): SystemSetting -> SystemSetting
  {
    (s: SystemSetting) => s.(fcmToken := Some(token), updatedAt := Some(now))
  }

  /**
   * The tables behind the controller. `defaults` is a settings row as the
   * entity's constructor makes it for `userId` "", before any field is set.
   */
  class SettingsDb {
    var credentials: seq<ExchangeCredential>
    var settings: seq<SystemSetting>

    predicate Valid()
      reads this
    {
      OneCredentialPerUser(credentials) && OneSettingPerUser(settings)
    }

    constructor ()
      ensures credentials == [] && settings == []
      ensures Valid()
    {
      credentials := [];
      settings := [];
    }

    /**
     * `GetApiKeys`: no keys, or the stored key decrypted and masked. The
     * secret takes no part in the answer.
     */
    function GetApiKeys(userId: Option<string>, decrypt: string -> string): (r: Response<Option<string>>)
      reads this
      ensures userId.None? <==> r.Unauthorized?
      ensures r.Ok? ==> (r.value.None? <==> FindCredential(credentials, userId.value).None?)
      ensures r.Ok? && r.value.Some? ==>
                r.value.value == MaskKey(decrypt(credentials[FindCredential(credentials, userId.value).value].apiKey))
    {
      if userId.None? then Unauthorized
      else
        var found := FindCredential(credentials, userId.value);
        if found.None? then Ok(None)
        else Ok(Some(MaskKey(decrypt(credentials[found.value].apiKey))))
    }

    /**
     * `SaveApiKeys`: a body failing validation, or with an empty key, is
     * refused before anything is looked up; an anonymous caller is refused;
     * otherwise the encrypted keys are upserted into the user's credential.
     */
    method SaveApiKeys(dto: ApiKeyDto, userId: Option<string>, encrypt: string -> string, now: int)
        returns (r: Response<string>)
      requires Valid()
      modifies this
      ensures Valid()
      ensures settings == old(settings)
      ensures ApiKeyDtoErrors(dto) != [] ==> r == BadRequest(ApiKeyDtoErrors(dto)) && credentials == old(credentials)
      ensures ApiKeyDtoErrors(dto) == [] && userId.None? ==> r == Unauthorized && credentials == old(credentials)
      ensures ApiKeyDtoErrors(dto) == [] && userId.Some? ==>
                r == Ok("API anahtarları başarıyla kaydedildi.") &&
                credentials == UpsertCredential(old(credentials), userId.value, encrypt(dto.apiKey), encrypt(dto.secretKey), now)
    {
      var errors := ApiKeyDtoErrors(dto);
      if errors != [] {
        return BadRequest(errors);
      }
      if dto.apiKey == "" || dto.secretKey == "" {
        return BadRequest(["API Key ve Secret Key zorunludur."]);
      }
      if userId.None? {
        return Unauthorized;
      }
      UpsertCredentialFacts(credentials, userId.value, encrypt(dto.apiKey), encrypt(dto.secretKey), now);
      credentials := UpsertCredential(credentials, userId.value, encrypt(dto.apiKey), encrypt(dto.secretKey), now);
      r := Ok("API anahtarları başarıyla kaydedildi.");
    }

    /** `GetGeneralSettings`: the user's row, or a inserted row for the user. */
    function GetGeneralSettings(userId: Option<string>, defaults: SystemSetting): (r: Response<SystemSetting>)
      reads this
      ensures userId.None? <==> r.Unauthorized?
      ensures r.Ok? ==> r.value.userId == userId.value
      ensures r.Ok? && FindSetting(settings, userId.value).None? ==> r.value == defaults.(userId := userId.value)
    {
      if userId.None? then Unauthorized
      else
        var found := FindSetting(settings, userId.value);
        if found.None? then Ok(defaults.(userId := userId.value)) else Ok(settings[found.value])
    }

    /**
     * `SaveGeneralSettings`: the general fields are copied onto the user's
     * row, or the posted row is inserted for the user.
     */
    method SaveGeneralSettings(model: SystemSetting, userId: Option<string>, now: int) returns (r: Response<string>)
      requires Valid()
      modifies this
      ensures Valid()
      ensures credentials == old(credentials)
      ensures userId.None? ==> r == Unauthorized && settings == old(settings)
      ensures userId.Some? ==>
                r == Ok("Sistem ayarları başarıyla kaydedildi.") &&
                settings == UpsertSetting(old(settings), userId.value, GeneralUpdate(model, now),
                                          model.(userId := userId.value, updatedAt := Some(now)))
    {
      if userId.None? {
        return Unauthorized;
      }
      UpsertSettingFacts(settings, userId.value, GeneralUpdate(model, now), model.(userId := userId.value, updatedAt := Some(now)));
      settings := UpsertSetting(settings, userId.value, GeneralUpdate(model, now), model.(userId := userId.value, updatedAt := Some(now)));
      r := Ok("Sistem ayarları başarıyla kaydedildi.");
    }

    /** `GetNotificationSettings`: the user's switches, all on when the user has no row. */
    function GetNotificationSettings(userId: Option<string>): (r: Response<NotificationSettings>)
      reads this
      ensures userId.None? <==> r.Unauthorized?
      ensures r.Ok? && FindSetting(settings, userId.value).None? ==> r.value == AllNotificationsOn
      ensures r.Ok? && FindSetting(settings, userId.value).Some? ==>
                r.value == settings[FindSetting(settings, userId.value).value].notifications
    {
      if userId.None? then Unauthorized
      else
        var found := FindSetting(settings, userId.value);
        if found.None? then Ok(AllNotificationsOn) else Ok(settings[found.value].notifications)
    }

    /**
     * `UpdateNotificationSettings`: the switches are copied onto the user's
     * row, or a new row with them is inserted.
     */
    method UpdateNotificationSettings(model: NotificationSettings, userId: Option<string>, defaults: SystemSetting, now: int)
        returns (r: Response<string>)
      requires Valid()
      modifies this
      ensures Valid()
      ensures credentials == old(credentials)
      ensures userId.None? ==> r == Unauthorized && settings == old(settings)
      ensures userId.Some? ==>
                r == Ok("Bildirim ayarları başarıyla kaydedildi.") &&
                settings == UpsertSetting(old(settings), userId.value, NotificationUpdate(model, now),
                                          defaults.(userId := userId.value, notifications := model, updatedAt := Some(now)))
    {
      if userId.None? {
        return Unauthorized;
      }
      var inserted := defaults.(userId := userId.value, notifications := model, updatedAt := Some(now));
      UpsertSettingFacts(settings, userId.value, NotificationUpdate(model, now), inserted);
      settings := UpsertSetting(settings, userId.value, NotificationUpdate(model, now), inserted);
      r := Ok("Bildirim ayarları başarıyla kaydedildi.");
    }

    /**
     * `UpdateFcmToken`: a missing or blank token is refused before anything
     * else; otherwise the token is stored on the user's row or a new row.
     */
    method UpdateFcmToken(token: Option<string>, userId: Option<string>, defaults: SystemSetting, now: int)
        returns (r: Response<string>)
      requires Valid()
      modifies this
      ensures Valid()
      ensures credentials == old(credentials)
      ensures NullOrWhiteSpace(token) ==> r == BadRequest(["FCM token zorunludur."]) && settings == old(settings)
      ensures !NullOrWhiteSpace(token) && userId.None? ==> r == Unauthorized && settings == old(settings)
      ensures !NullOrWhiteSpace(token) && userId.Some? ==>
                r == Ok("FCM token kaydedildi.") &&
                settings == UpsertSetting(old(settings), userId.value, TokenUpdate(token.value, now),
                                          defaults.(userId := userId.value, fcmToken := token, updatedAt := Some(now)))
    {
      if NullOrWhiteSpace(token) {
        return BadRequest(["FCM token zorunludur."]);
      }
      if userId.None? {
        return Unauthorized;
      }
      var inserted := defaults.(userId := userId.value, fcmToken := token, updatedAt := Some(now));
      UpsertSettingFacts(settings, userId.value, TokenUpdate(token.value, now), inserted);
      settings := UpsertSetting(settings, userId.value, TokenUpdate(token.value, now), inserted);
      r := Ok("FCM token kaydedildi.");
    }
  }

  /** The secret never reaches the answer: two tables that differ only in stored secrets answer alike. */
  lemma GetApiKeysIgnoresSecrets(a: SettingsDb, b: SettingsDb, userId: Option<string>, decrypt: string -> string)
    requires |a.credentials| == |b.credentials|
    requires forall i :: 0 <= i < |a.credentials| ==> a.credentials[i] == b.credentials[i].(apiSecret := a.credentials[i].apiSecret)
    ensures a.GetApiKeys(userId, decrypt) == b.GetApiKeys(userId, decrypt)
  {
    if userId.Some? {
      SameKeysSameLookup(a.credentials, b.credentials, userId.value);
    }
  }

  lemma {:induction false} SameKeysSameLookup(a: seq<ExchangeCredential>, b: seq<ExchangeCredential>, userId: string)
    requires |a| == |b|
    requires forall i :: 0 <= i < |a| ==> a[i] == b[i].(apiSecret := a[i].apiSecret)
    ensures FindCredential(a, userId) == FindCredential(b, userId)
    decreases |a|
  {
    if |a| > 0 {
      assert IsUsersCredential(a[0], userId) == IsUsersCredential(b[0], userId);
      SameKeysSameLookup(a[1..], b[1..], userId);
    }
  }

  /** After a save, reading the keys back shows the new key, masked. */
  lemma SavedKeyReadsBack(creds: seq<ExchangeCredential>, userId: string, apiKey: string, apiSecret: string, now: int,
                          encrypt: string -> string, decrypt: string -> string)
    requires OneCredentialPerUser(creds)
    requires decrypt(encrypt(apiKey)) == apiKey
    ensures var r := UpsertCredential(creds, userId, encrypt(apiKey), encrypt(apiSecret), now);
      FindCredential(r, userId).Some? && MaskKey(decrypt(r[FindCredential(r, userId).value].apiKey)) == MaskKey(apiKey)
  {
    UpsertCredentialFacts(creds, userId, encrypt(apiKey), encrypt(apiSecret), now);
  }

  // ------------------------------------------------------------ audit rows

  /** The number of audit rows the settings page shows. */
  const LatestAuditRows: int := 200

  /** `GetAuditLogs`: the 200 newest audit rows, newest first. */
  function GetAuditLogs(logs: seq<AuditLogServices.AuditLog>): seq<AuditLogServices.AuditLog>
  {
    Take(SortDesc(logs, AuditLogServices.Timestamp), LatestAuditRows)
  }

  /** The rows shown are audit rows, newest first, and as many as there are up to 200. */
  lemma GetAuditLogsFacts(logs: seq<AuditLogServices.AuditLog>)
    ensures var r := GetAuditLogs(logs);
      |r| == MinInt(|logs|, LatestAuditRows) &&
      SortedDesc(r, AuditLogServices.Timestamp) &&
      (forall a :: a in r ==> a in logs)
  {
    var sorted := SortDesc(logs, AuditLogServices.Timestamp);
    forall a | a in GetAuditLogs(logs) ensures a in logs {
      SortDescElements(logs, AuditLogServices.Timestamp, a);
    }
  }
}
