/**
 * The per-user token document `fcm_tokens/{userId}`: a `tokens` field that maps a device id to
 * the device's delivery token, platform and last update. Reading it (`getUserTokens`) and
 * deleting the entries whose token is dead (`cleanupInvalidTokens`).
 */
module TokenStore {
  import opened Wrappers

  /** One registered device. The timestamp is opaque here. */
  datatype TokenData = TokenData(token: string, platform: string, updatedAt: int)

  /** A `deviceId -> TokenData` field of the token document. */
  datatype Entry = Entry(deviceId: string, data: TokenData)

  /**
   * The `tokens` object, as the ordered list of its entries (the order in which
   * `Object.values` and `Object.entries` enumerate them).
   */
  type TokenMap = seq<Entry>

  /** The token document; its `tokens` field may be missing. */
  datatype TokensDoc = TokensDoc(tokens: Option<TokenMap>)

  /** An object never has two fields with the same name. */
  ghost predicate DistinctDevices(m: TokenMap) {
    forall i, j :: 0 <= i < j < |m| ==> m[i].deviceId != m[j].deviceId
  }

  /** The set of device ids that have a field in `m`. */
  function DeviceIds(m: TokenMap): set<string> {
    set e | e in m :: e.deviceId
  }

  /** The map that `m` denotes (for a repeated id, the later entry wins). */
  function AsMap(m: TokenMap): (r: map<string, TokenData>)
    ensures r.Keys == DeviceIds(m)
  {
    if m == [] then map[]
    else
      var init := m[..|m| - 1];
      var last := m[|m| - 1];
      assert m == init + [last];
      assert DeviceIds(m) == DeviceIds(init) + {last.deviceId};
      AsMap(init)[last.deviceId := last.data]
  }

  /** `Object.values(tokensMap).map((t) => t.token)`. */
  function TokenValues(m: TokenMap): (r: seq<string>)
    ensures |r| == |m|
    ensures forall i :: 0 <= i < |m| ==> r[i] == m[i].data.token
  {
    if m == [] then [] else [m[0].data.token] + TokenValues(m[1..])
  }

  /** What `getUserTokens` returns: the token list and the entries it came from. */
  datatype TokenSnapshot = TokenSnapshot(tokens: seq<string>, tokensMap: TokenMap)

  /**
   * Reads the token document of `userId` from the `fcm_tokens` collection. A missing document,
   * or one without a `tokens` field, is an empty snapshot and not an error.
   */
  function GetUserTokens(fcmTokens: map<string, TokensDoc>, userId: string): (r: TokenSnapshot)
    ensures userId !in fcmTokens ==> r.tokens == [] && r.tokensMap == []
    ensures userId in fcmTokens && fcmTokens[userId].tokens.Some? ==>
              r.tokensMap == fcmTokens[userId].tokens.value
    ensures userId in fcmTokens && fcmTokens[userId].tokens.None? ==> r.tokensMap == []
    ensures |r.tokens| == |r.tokensMap|
    ensures forall i :: 0 <= i < |r.tokens| ==> r.tokens[i] == r.tokensMap[i].data.token
  {
    if userId !in fcmTokens then TokenSnapshot([], [])
    else
      var tokensMap := fcmTokens[userId].tokens.GetOr([]);
      TokenSnapshot(TokenValues(tokensMap), tokensMap)
  }

  /**
   * The write a cleanup issues: nothing, or one `update` of the user's token document that
   * deletes the field `tokens.<id>` for every id in `deviceIds`.
   */
  datatype Write = NoWrite | DeleteFields(userId: string, deviceIds: set<string>)

  /** The device ids whose token value is in `failedTokens`. */
  function DeadDevices(failedTokens: seq<string>, m: TokenMap): set<string> {
    set e | e in m && e.data.token in failedTokens :: e.deviceId
  }

  /** The write `cleanupInvalidTokens(userId, failedTokens, m)` issues. */
  function CleanupWrite(userId: string, failedTokens: seq<string>, m: TokenMap): (w: Write)
    ensures failedTokens == [] ==> w == NoWrite
    ensures w == NoWrite <==> forall e :: e in m ==> e.data.token !in failedTokens
    ensures w.DeleteFields? ==> w.userId == userId && w.deviceIds == DeadDevices(failedTokens, m)
  {
    if |failedTokens| == 0 then NoWrite
    else
      var dead := DeadDevices(failedTokens, m);
      if forall e :: e in m ==> e.data.token !in failedTokens then
        NoWrite
      else
        var e :| e in m && e.data.token in failedTokens;
        assert e.deviceId in dead;
        if |dead| > 0 then DeleteFields(userId, dead) else NoWrite
  }

  /** The document after deleting the fields of the devices in `ids`. */
  function RemoveDevices(m: TokenMap, ids: set<string>): (r: TokenMap)
    ensures forall e :: e in r <==> e in m && e.deviceId !in ids
  {
    if m == [] then []
    else
      var init := m[..|m| - 1];
      var last := m[|m| - 1];
      assert m == init + [last];
      RemoveDevices(init, ids) + (if last.deviceId in ids then [] else [last])
  }

  /** The token entries after `w` is applied to them. */
  function ApplyWrite(m: TokenMap, w: Write): TokenMap {
    match w
    case NoWrite => m
    case DeleteFields(_, ids) => RemoveDevices(m, ids)
  }

  /**
   * `cleanupInvalidTokens`: no write for an empty failed list; otherwise the loop over the entries
   * collects the field deletions, and the update is issued only when there is at least one.
   */
  method CleanupInvalidTokens(userId: string, failedTokens: seq<string>, tokensMap: TokenMap)
    returns (w: Write)
    ensures w == CleanupWrite(userId, failedTokens, tokensMap)
  {
    if |failedTokens| == 0 {
      return NoWrite;
    }
    var updates: set<string> := {};
    for i := 0 to |tokensMap|
      invariant updates == DeadDevices(failedTokens, tokensMap[..i])
    {
      assert tokensMap[..i + 1] == tokensMap[..i] + [tokensMap[i]];
      if tokensMap[i].data.token in failedTokens {
        updates := updates + {tokensMap[i].deviceId};
      }
    }
    assert tokensMap[..|tokensMap|] == tokensMap;
    if |updates| > 0 {
      w := DeleteFields(userId, updates);
    } else {
      w := NoWrite;
    }
  }

  /** Adding an entry at the end sets its key in the map view. */
  lemma AsMapSnoc(m: TokenMap, e: Entry)
    ensures AsMap(m + [e]) == AsMap(m)[e.deviceId := e.data]
  {
  }

  /** Setting a key and then removing a set of keys, in either order. */
  lemma UpdateThenRemove(a: map<string, TokenData>, ids: set<string>, k: string, v: TokenData)
    ensures k in ids ==> a[k := v] - ids == a - ids
    ensures k !in ids ==> a[k := v] - ids == (a - ids)[k := v]
  {
  }

  /** Removing devices from the entries removes exactly their keys from the map view. */
  lemma {:induction false} AsMapRemoveDevices(m: TokenMap, ids: set<string>)
    ensures AsMap(RemoveDevices(m, ids)) == AsMap(m) - ids
  {
    if m != [] {
      var init := m[..|m| - 1];
      var last := m[|m| - 1];
      var r0 := RemoveDevices(init, ids);
      AsMapRemoveDevices(init, ids);
      assert init + [last] == m;
      AsMapSnoc(init, last);
      UpdateThenRemove(AsMap(init), ids, last.deviceId, last.data);
      if last.deviceId in ids {
        assert RemoveDevices(m, ids) == r0 + [];
        assert r0 + [] == r0;
      } else {
        AsMapSnoc(r0, last);
        calc {
          AsMap(RemoveDevices(m, ids));
          AsMap(r0 + [last]);
          AsMap(r0)[last.deviceId := last.data];
          (AsMap(init) - ids)[last.deviceId := last.data];
          AsMap(m) - ids;
        }
      }
    }
  }

  /** An entry is deleted by the cleanup exactly when its own token value is dead. */
  lemma CleanupKeepsExactlyLive(userId: string, failedTokens: seq<string>, m: TokenMap)
    requires DistinctDevices(m)
    ensures forall e :: e in ApplyWrite(m, CleanupWrite(userId, failedTokens, m)) <==>
                        e in m && e.data.token !in failedTokens
  {
  }

  /** In the map view, the cleanup deletes the keys of the dead devices and keeps every other key and value. */
  lemma CleanupMapView(userId: string, failedTokens: seq<string>, m: TokenMap)
    ensures AsMap(ApplyWrite(m, CleanupWrite(userId, failedTokens, m))) ==
            AsMap(m) - DeadDevices(failedTokens, m)
  {
    var dead := DeadDevices(failedTokens, m);
    if CleanupWrite(userId, failedTokens, m) == NoWrite {
      assert dead == {};
      assert AsMap(m) - dead == AsMap(m);
    } else {
      AsMapRemoveDevices(m, dead);
    }
  }

  /** A device id is dead exactly when the token value stored under it is in the failed list. */
  lemma DeadDevicesByValue(failedTokens: seq<string>, m: TokenMap, d: string)
    requires DistinctDevices(m) && d in AsMap(m)
    ensures d in DeadDevices(failedTokens, m) <==> AsMap(m)[d].token in failedTokens
  {
  }

  /** A second cleanup with the same failed list, after the first was applied, writes nothing. */
  lemma CleanupIdempotent(userId: string, failedTokens: seq<string>, m: TokenMap)
    ensures CleanupWrite(userId, failedTokens, ApplyWrite(m, CleanupWrite(userId, failedTokens, m))) == NoWrite
  {
  }

  /** The entries that survive a cleanup keep their relative order. */
  lemma {:induction false} RemoveDevicesKeepsOrder(m: TokenMap, ids: set<string>)
    ensures Subsequence(RemoveDevices(m, ids), m)
  {
    if m != [] {
      var init := m[..|m| - 1];
      var last := m[|m| - 1];
      var r0 := RemoveDevices(init, ids);
      RemoveDevicesKeepsOrder(init, ids);
      if last.deviceId in ids {
        assert RemoveDevices(m, ids) == r0;
      } else {
        var r := r0 + [last];
        assert RemoveDevices(m, ids) == r;
        assert r[..|r| - 1] == r0;
      }
    }
  }
}
