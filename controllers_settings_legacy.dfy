/**
 * `SettingsController` of the older `backend-api` service: the same Binance
 * key endpoints as the backend's, with no validation attributes on the
 * request and no encryption. Keys are stored and masked as they were given.
 */
module LegacySettingsControllers {
  import opened Common
  import opened SettingsControllers

  /** The credential table of the older service. */
  class CredentialTable {
    var credentials: seq<ExchangeCredential>

    predicate Valid()
      reads this
    {
      OneCredentialPerUser(credentials)
    }

    constructor ()
      ensures credentials == []
      ensures Valid()
    {
      credentials := [];
    }

    /** `GetApiKeys`: no keys, or the stored key masked; the secret is never returned. */
    function GetApiKeys(userId: Option<string>): (r: Response<Option<string>>)
      reads this
      ensures userId.None? <==> r.Unauthorized?
      ensures r.Ok? ==> (r.value.None? <==> FindCredential(credentials, userId.value).None?)
      ensures r.Ok? && r.value.Some? ==>
                r.value.value == MaskKey(credentials[FindCredential(credentials, userId.value).value].apiKey)
    {
      if userId.None? then Unauthorized
      else
        var found := FindCredential(credentials, userId.value);
        if found.None? then Ok(None) else Ok(Some(MaskKey(credentials[found.value].apiKey)))
    }

    /**
     * `SaveApiKeys`: an empty key or secret is refused with nothing
     * changed; otherwise the keys are stored for the user as given.
     */
    method SaveApiKeys(dto: ApiKeyDto, userId: Option<string>, now: int) returns (r: Response<string>)
      requires Valid()
      modifies this
      ensures Valid()
      ensures dto.apiKey == "" || dto.secretKey == "" ==>
                r == BadRequest(["API Key ve Secret Key zorunludur."]) && credentials == old(credentials)
      ensures dto.apiKey != "" && dto.secretKey != "" && userId.None? ==> r == Unauthorized && credentials == old(credentials)
      ensures dto.apiKey != "" && dto.secretKey != "" && userId.Some? ==>
                r == Ok("API anahtarları başarıyla kaydedildi.") &&
                credentials == UpsertCredential(old(credentials), userId.value, dto.apiKey, dto.secretKey, now)
    {
      if dto.apiKey == "" || dto.secretKey == "" {
        return BadRequest(["API Key ve Secret Key zorunludur."]);
      }
      if userId.None? {
        return Unauthorized;
      }
      UpsertCredentialFacts(credentials, userId.value, dto.apiKey, dto.secretKey, now);
      credentials := UpsertCredential(credentials, userId.value, dto.apiKey, dto.secretKey, now);
      r := Ok("API anahtarları başarıyla kaydedildi.");
    }
  }

  /**
   * The secret is kept in plain text: after a save, the user's credential
   * holds the key and the secret exactly as they were sent, and reading the
   * keys back shows the sent key masked.
   */
  lemma SavedInPlainText(creds: seq<ExchangeCredential>, userId: string, dto: ApiKeyDto, now: int)
    requires OneCredentialPerUser(creds)
    ensures var r := UpsertCredential(creds, userId, dto.apiKey, dto.secretKey, now);
      FindCredential(r, userId).Some? &&
      r[FindCredential(r, userId).value].apiKey == dto.apiKey &&
      r[FindCredential(r, userId).value].apiSecret == dto.secretKey
  {
    UpsertCredentialFacts(creds, userId, dto.apiKey, dto.secretKey, now);
  }
}
