/**
 * `DevicesController`: the phones a user registers for push notifications.
 *
 * The device table is a class whose rows the controller updates in place;
 * ids are handed out by a counter as the identity column does. The table
 * has a unique index on the FCM token: a save that would give two devices
 * the same token fails, and nothing is stored. The signed-in user is
 * `userId` (none when the request carries no user), and the clock is
 * `now` in minutes.
 */
module DevicesControllers {
  import opened Common
  import opened Listing

  /** The `UserDevice` entity. */
  datatype UserDevice = UserDevice(
    id: nat,
    userId: string,
    fcmToken: string,
    deviceType: string,
    deviceModel: Option<string>,
    appVersion: Option<string>,
    registeredAt: int,
    lastUsedAt: Option<int>,
    isActive: bool)

  /** `RegisterDeviceDto`. */
  datatype RegisterDeviceDto = RegisterDeviceDto(fcmToken: string, deviceType: string, deviceModel: Option<string>, appVersion: Option<string>)

  /** What the listing shows of a device. */
  datatype DeviceView = DeviceView(
    id: nat,
    deviceType: string,
    deviceModel: Option<string>,
    appVersion: Option<string>,
    registeredAt: int,
    lastUsedAt: Option<int>,
    isActive: bool)

  /** The answers of the controller; `SaveFailed` is the unique-index violation that escapes as a server error. */
  datatype DeviceResponse<T> = Unauthorized | NotFound(message: string) | SaveFailed | Ok(value: T)

  const Registered := "Device registered successfully"
  const Unregistered := "Device unregistered successfully"
  const DeviceNotFound := "Device not found"

  /** `string.IsNullOrEmpty` on the user id claim. */
  predicate NoUser(userId: Option<string>)
  {
    userId.None? || userId.value == ""
  }

  /** The first device of the user with this type and model. */
  function FindByModel(devices: seq<UserDevice>, userId: string, deviceType: string, deviceModel: Option<string>): (r: Option<nat>)
    ensures r.Some? ==> r.value < |devices| && devices[r.value].userId == userId &&
                        devices[r.value].deviceType == deviceType && devices[r.value].deviceModel == deviceModel
    ensures r.None? <==> forall i :: 0 <= i < |devices| ==>
                           !(devices[i].userId == userId && devices[i].deviceType == deviceType && devices[i].deviceModel == deviceModel)
  {
    if |devices| == 0 then None
    else if devices[0].userId == userId && devices[0].deviceType == deviceType && devices[0].deviceModel == deviceModel then Some(0)
    else
      var rest := FindByModel(devices[1..], userId, deviceType, deviceModel);
      assert forall i :: 1 <= i < |devices| ==> devices[i] == devices[1..][i - 1];
      if rest.None? then None else Some(rest.value + 1)
  }

  /** The first device with this token, whoever owns it. */
  function FindByToken(devices: seq<UserDevice>, token: string): (r: Option<nat>)
    ensures r.Some? ==> r.value < |devices| && devices[r.value].fcmToken == token
    ensures r.None? <==> forall i :: 0 <= i < |devices| ==> devices[i].fcmToken != token
  {
    if |devices| == 0 then None
    else if devices[0].fcmToken == token then Some(0)
    else
      var rest := FindByToken(devices[1..], token);
      assert forall i :: 1 <= i < |devices| ==> devices[i] == devices[1..][i - 1];
      if rest.None? then None else Some(rest.value + 1)
  }

  /** The first device with this token that belongs to this user. */
  function FindOwnedToken(devices: seq<UserDevice>, token: string, userId: string): (r: Option<nat>)
    ensures r.Some? ==> r.value < |devices| && devices[r.value].fcmToken == token && devices[r.value].userId == userId
    ensures r.None? <==> forall i :: 0 <= i < |devices| ==> !(devices[i].fcmToken == token && devices[i].userId == userId)
  {
    if |devices| == 0 then None
    else if devices[0].fcmToken == token && devices[0].userId == userId then Some(0)
    else
      var rest := FindOwnedToken(devices[1..], token, userId);
      assert forall i :: 1 <= i < |devices| ==> devices[i] == devices[1..][i - 1];
      if rest.None? then None else Some(rest.value + 1)
  }

  /** The unique index on `FcmToken`. */
  predicate UniqueTokens(devices: seq<UserDevice>)
  {
    forall i, j :: 0 <= i < j < |devices| ==> devices[i].fcmToken != devices[j].fcmToken
  }

  predicate DistinctIds(devices: seq<UserDevice>)
  {
    forall i, j :: 0 <= i < j < |devices| ==> devices[i].id != devices[j].id
  }

  /** Another device than the `k`-th already holds the token. */
  predicate TokenTakenElsewhere(devices: seq<UserDevice>, k: int, token: string)
  {
    exists j :: 0 <= j < |devices| && j != k && devices[j].fcmToken == token
  }

  /** The device the registration updates, if any: a model match first, then a token match. */
  function MatchFor(devices: seq<UserDevice>, userId: string, dto: RegisterDeviceDto): (r: Option<nat>)
    ensures r.Some? ==> r.value < |devices|
    ensures FindByModel(devices, userId, dto.deviceType, dto.deviceModel).Some? ==>
              r == FindByModel(devices, userId, dto.deviceType, dto.deviceModel)
    ensures FindByModel(devices, userId, dto.deviceType, dto.deviceModel).None? ==> r == FindByToken(devices, dto.fcmToken)
  {
    var byModel := FindByModel(devices, userId, dto.deviceType, dto.deviceModel);
    if byModel.Some? then byModel else FindByToken(devices, dto.fcmToken)
  }

  /** A matched device, refreshed: type, id and registration time are kept. */
  function Refreshed(d: UserDevice, userId: string, dto: RegisterDeviceDto, now: int): (r: UserDevice)
    ensures r.id == d.id && r.deviceType == d.deviceType && r.registeredAt == d.registeredAt
    ensures r.userId == userId && r.fcmToken == dto.fcmToken && r.lastUsedAt == Some(now) && r.isActive
    ensures r.deviceModel == dto.deviceModel && r.appVersion == dto.appVersion
  {
    d.(userId := userId, fcmToken := dto.fcmToken, lastUsedAt := Some(now), isActive := true,
       deviceModel := dto.deviceModel, appVersion := dto.appVersion)
  }

  function LastUsedKey(d: UserDevice): real
  {
    if d.lastUsedAt.Some? then d.lastUsedAt.value as real else 0.0
  }

  function View(d: UserDevice): DeviceView
  {
    DeviceView(d.id, d.deviceType, d.deviceModel, d.appVersion, d.registeredAt, d.lastUsedAt, d.isActive)
  }

  function Views(s: seq<UserDevice>): (r: seq<DeviceView>)
    ensures |r| == |s| && forall i :: 0 <= i < |s| ==> r[i] == View(s[i])
  {
    seq(|s|, i requires 0 <= i < |s| => View(s[i]))
  }

  function OwnedBy(userId: string): UserDevice -> bool
  {
    (d: UserDevice) => d.userId == userId
  }

  /** The user's devices, most recently used first. */
  function DevicesOf(devices: seq<UserDevice>, userId: string): seq<DeviceView>
  {
    Views(SortDesc(Filter(devices, OwnedBy(userId)), LastUsedKey))
  }

  /**
   * The listing holds one entry per device of the user, each with a
   * last-use time, most recent first.
   */
  lemma DevicesNewestFirst(devices: seq<UserDevice>, userId: string)
    requires forall i :: 0 <= i < |devices| ==> devices[i].lastUsedAt.Some?
    ensures var r := DevicesOf(devices, userId);
      |r| == CountWhere(devices, OwnedBy(userId)) &&
      (forall i :: 0 <= i < |r| ==> r[i].lastUsedAt.Some?) &&
      (forall i, j :: 0 <= i < j < |r| ==> r[i].lastUsedAt.value >= r[j].lastUsedAt.value)
  {
    var mine := Filter(devices, OwnedBy(userId));
    var sorted := SortDesc(mine, LastUsedKey);
    CountWhereIsFilterLength(devices, OwnedBy(userId));
    var r := Views(sorted);
    forall i | 0 <= i < |r| ensures sorted[i].lastUsedAt.Some? {
      SortDescElements(mine, LastUsedKey, sorted[i]);
    }
    forall i, j | 0 <= i < j < |r| ensures r[i].lastUsedAt.value >= r[j].lastUsedAt.value {
      assert LastUsedKey(sorted[i]) >= LastUsedKey(sorted[j]);
    }
  }

  /** Every device of the user is in the listing. */
  lemma DevicesComplete(devices: seq<UserDevice>, userId: string, d: UserDevice)
    requires d in devices && d.userId == userId
    ensures View(d) in DevicesOf(devices, userId)
  {
    var mine := Filter(devices, OwnedBy(userId));
    var sorted := SortDesc(mine, LastUsedKey);
    assert d in mine;
    SortDescElements(mine, LastUsedKey, d);
    var i :| 0 <= i < |sorted| && sorted[i] == d;
    assert Views(sorted)[i] == View(d);
  }

  /** Nothing but the user's own devices is in the listing. */
  lemma DevicesOnlyOwn(devices: seq<UserDevice>, userId: string, i: int)
    requires 0 <= i < |DevicesOf(devices, userId)|
    ensures exists d :: d in devices && d.userId == userId && DevicesOf(devices, userId)[i] == View(d)
  {
    var mine := Filter(devices, OwnedBy(userId));
    var sorted := SortDesc(mine, LastUsedKey);
    var d := sorted[i];
    SortDescElements(mine, LastUsedKey, d);
    assert d in mine;
    assert DevicesOf(devices, userId)[i] == View(d);
  }

  /** The device table. */
  class DeviceTable {
    var devices: seq<UserDevice>
    /** The next identity value; every stored id is below it. */
    var nextId: nat

    /** Ids are distinct, tokens are unique, and every device has been used. */
    predicate Valid()
      reads this
    {
      DistinctIds(devices) && UniqueTokens(devices) &&
      forall i :: 0 <= i < |devices| ==> devices[i].id < nextId && devices[i].lastUsedAt.Some?
    }

    constructor ()
      ensures devices == [] && nextId == 1
      ensures Valid()
    {
      devices := [];
      nextId := 1;
    }

    /**
     * `RegisterDevice`. Without a user nothing changes. Otherwise the user's
     * device of the same type and model, or else the device holding the
     * token, is refreshed; with neither, a new active device is added. A
     * refresh that would give the token to a second device fails to save.
     */
    method RegisterDevice(userId: Option<string>, dto: RegisterDeviceDto, now: int) returns (r: DeviceResponse<string>)
      requires Valid()
      modifies this
      ensures Valid()
      ensures NoUser(userId) ==> r == Unauthorized && devices == old(devices) && nextId == old(nextId)
      ensures !NoUser(userId) && MatchFor(old(devices), userId.value, dto).Some? ==>
                var k := MatchFor(old(devices), userId.value, dto).value;
                nextId == old(nextId) &&
                if TokenTakenElsewhere(old(devices), k, dto.fcmToken) then
                  r == SaveFailed && devices == old(devices)
                else
                  r == Ok(Registered) && devices == old(devices)[k := Refreshed(old(devices)[k], userId.value, dto, now)]
      ensures !NoUser(userId) && MatchFor(old(devices), userId.value, dto).None? ==>
                r == Ok(Registered) && nextId == old(nextId) + 1 &&
                devices == old(devices) + [UserDevice(old(nextId), userId.value, dto.fcmToken, dto.deviceType, dto.deviceModel,
                                                      dto.appVersion, now, Some(now), true)]
      ensures r.Ok? ==> var k := FindByToken(devices, dto.fcmToken);
                k.Some? && devices[k.value].userId == userId.value && devices[k.value].isActive &&
                devices[k.value].lastUsedAt == Some(now)
      ensures r.Ok? ==> FindOwnedToken(devices, dto.fcmToken, userId.value).Some?
    {
      if NoUser(userId) {
        return Unauthorized;
      }
      var user := userId.value;
      var found := MatchFor(devices, user, dto);
      if found.Some? {
        var k := found.value;
        if TokenTakenElsewhere(devices, k, dto.fcmToken) {
          return SaveFailed;
        }
        var updated := devices[k := Refreshed(devices[k], user, dto, now)];
        assert forall i :: 0 <= i < |devices| ==> updated[i].id == devices[i].id;
        assert UniqueTokens(updated);
        devices := updated;
        TokenHolder(devices, k);
      } else {
        var added := UserDevice(nextId, user, dto.fcmToken, dto.deviceType, dto.deviceModel, dto.appVersion, now, Some(now), true);
        var grown := devices + [added];
        assert forall i :: 0 <= i < |devices| ==> grown[i] == devices[i];
        assert UniqueTokens(grown);
        devices := grown;
        nextId := nextId + 1;
        TokenHolder(devices, |devices| - 1);
      }
      r := Ok(Registered);
    }

    /**
     * `UnregisterDevice`. Without a user nothing changes; a token that is
     * not one of the user's devices is not found; otherwise that device is
     * removed and the token is no longer registered.
     */
    method UnregisterDevice(userId: Option<string>, fcmToken: string) returns (r: DeviceResponse<string>)
      requires Valid()
      modifies this
      ensures Valid() && nextId == old(nextId)
      ensures NoUser(userId) ==> r == Unauthorized && devices == old(devices)
      ensures !NoUser(userId) && FindOwnedToken(old(devices), fcmToken, userId.value).None? ==>
                r == NotFound(DeviceNotFound) && devices == old(devices)
      ensures !NoUser(userId) && FindOwnedToken(old(devices), fcmToken, userId.value).Some? ==>
                var k := FindOwnedToken(old(devices), fcmToken, userId.value).value;
                r == Ok(Unregistered) && devices == old(devices)[..k] + old(devices)[k + 1..] &&
                FindByToken(devices, fcmToken).None?
    {
      if NoUser(userId) {
        return Unauthorized;
      }
      var found := FindOwnedToken(devices, fcmToken, userId.value);
      if found.None? {
        return NotFound(DeviceNotFound);
      }
      var k := found.value;
      RemoveAt(devices, k, nextId);
      devices := devices[..k] + devices[k + 1..];
      r := Ok(Unregistered);
    }

    /** `GetUserDevices`: the user's devices, most recently used first. */
    function GetUserDevices(userId: Option<string>): (r: DeviceResponse<seq<DeviceView>>)
      requires Valid()
      reads this
      ensures NoUser(userId) <==> r.Unauthorized?
      ensures r.Ok? ==> |r.value| == CountWhere(devices, OwnedBy(userId.value))
      ensures r.Ok? ==> forall i :: 0 <= i < |r.value| ==> r.value[i].lastUsedAt.Some?
      ensures r.Ok? ==> forall i, j :: 0 <= i < j < |r.value| ==> r.value[i].lastUsedAt.value >= r.value[j].lastUsedAt.value
      ensures r.Ok? ==> forall d :: d in devices && d.userId == userId.value ==> View(d) in r.value
      ensures r.Ok? ==> forall i :: 0 <= i < |r.value| ==> exists d :: d in devices && d.userId == userId.value && r.value[i] == View(d)
    {
      if NoUser(userId) then Unauthorized
      else
        var u := userId.value;
        DevicesNewestFirst(devices, u);
        assert forall d :: d in devices && d.userId == u ==> View(d) in DevicesOf(devices, u) by {
          forall d | d in devices && d.userId == u { DevicesComplete(devices, u, d); }
        }
        assert forall i :: 0 <= i < |DevicesOf(devices, u)| ==>
                 exists d :: d in devices && d.userId == u && DevicesOf(devices, u)[i] == View(d) by {
          forall i | 0 <= i < |DevicesOf(devices, u)| { DevicesOnlyOwn(devices, u, i); }
        }
        Ok(DevicesOf(devices, u))
    }
  }

  /** With unique tokens, the lookup by token finds the device at `k`. */
  lemma TokenHolder(devices: seq<UserDevice>, k: int)
    requires UniqueTokens(devices) && 0 <= k < |devices|
    ensures FindByToken(devices, devices[k].fcmToken) == Some(k)
  {
    var f := FindByToken(devices, devices[k].fcmToken);
    assert devices[f.value].fcmToken == devices[k].fcmToken;
  }

  /** Removing the `k`-th device keeps the table valid and frees its token. */
  lemma RemoveAt(devices: seq<UserDevice>, k: int, nextId: nat)
    requires 0 <= k < |devices| && DistinctIds(devices) && UniqueTokens(devices)
    requires forall i :: 0 <= i < |devices| ==> devices[i].id < nextId && devices[i].lastUsedAt.Some?
    ensures var rest := devices[..k] + devices[k + 1..];
      DistinctIds(rest) && UniqueTokens(rest) &&
      (forall i :: 0 <= i < |rest| ==> rest[i].id < nextId && rest[i].lastUsedAt.Some?) &&
      FindByToken(rest, devices[k].fcmToken).None?
  {
    var rest := devices[..k] + devices[k + 1..];
    assert forall i :: 0 <= i < |rest| ==> rest[i] == devices[if i < k then i else i + 1];
  }
}
