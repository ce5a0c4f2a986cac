/**
 * Station-mode credential persistence (main/app_nvs.c).
 *
 * Non-volatile storage is modelled as the key/blob map of the namespace
 * "stacreds". The result code that the NVS library returns for each call
 * (open, the two get_blob calls, set_blob, erase_all, commit) is a
 * parameter, NvsResults: the model decides what the credential code does
 * with each outcome, not why the library fails. On top of its result code,
 * nvs_get_blob also fails when the key is absent or the stored blob does not
 * fit the buffer (GetBlob).
 */
module AppNvs {
  import opened Wrappers

  type Byte = bv8
  type Blob = seq<Byte>

  /** Contents of the NVS namespace "stacreds": key to blob. */
  type Store = map<string, Blob>

  /** esp_err_t: ESP_OK is zero, every other value is an error code. */
  type EspErr = int

  const EspOk: EspErr := 0
  /** ESP_FAIL, the generic error code. */
  const EspFail: EspErr := -1

  /** Lengths of the ssid and password fields of the station configuration, and of their blobs. */
  const MaxSsidLength: nat := 32
  const MaxPasswordLength: nat := 64

  const SsidKey := "ssid"
  const PasswordKey := "password"

  function Zeros(n: nat): Blob
  {
    seq(n, _ => 0)
  }

  datatype StaConfig = StaConfig(ssid: Blob, password: Blob)

  /** The station part of wifi_config_t: the fixed-size ssid and password arrays. */
  type WifiConfig = c: StaConfig | |c.ssid| == MaxSsidLength && |c.password| == MaxPasswordLength
    witness StaConfig(Zeros(MaxSsidLength), Zeros(MaxPasswordLength))

  /** A wifi_config_t after memset to zero. */
  const ZeroConfig: WifiConfig := StaConfig(Zeros(MaxSsidLength), Zeros(MaxPasswordLength))

  /** What the NVS library returns for each call one credential operation makes. */
  datatype NvsResults = NvsResults(
    open: EspErr,
    getSsid: EspErr,
    getPassword: EspErr,
    setSsid: EspErr,
    setPassword: EspErr,
    eraseAll: EspErr,
    commit: EspErr)

  const AllOk := NvsResults(EspOk, EspOk, EspOk, EspOk, EspOk, EspOk, EspOk)

  /**
   * The code returned by a sequence of calls that stops at the first failure:
   * that failure's code, or ESP_OK when every call succeeded.
   */
  function FirstError(results: seq<EspErr>): (r: EspErr)
    ensures r == EspOk <==> forall i :: 0 <= i < |results| ==> results[i] == EspOk
    ensures r != EspOk ==> exists i :: 0 <= i < |results| && results[i] == r && forall j :: 0 <= j < i ==> results[j] == EspOk
  {
    if results == [] then EspOk
    else if results[0] != EspOk then results[0]
    else FirstError(results[1..])
  }

  /** A field that memset zeroed and memcpy then filled with blob b. */
  function Pad(b: Blob, n: nat): (r: Blob)
    requires |b| <= n
    ensures |r| == n && r[..|b|] == b
    ensures forall i :: |b| <= i < n ==> r[i] == 0
  {
    b + Zeros(n - |b|)
  }

  /**
   * nvs_get_blob into a buffer of `capacity` bytes, where the storage driver
   * reports `result`: it yields the stored blob only when the driver succeeds,
   * the key is present and the blob fits.
   */
  function GetBlob(blobs: Store, key: string, capacity: nat, result: EspErr): Option<Blob>
  {
    if result == EspOk && key in blobs && |blobs[key]| <= capacity then Some(blobs[key]) else None
  }

  /** Every byte of `field` is zero or the stored byte at the same position under `key`. */
  ghost predicate FromStoreOrZero(field: Blob, blobs: Store, key: string)
  {
    forall i :: 0 <= i < |field| ==> field[i] == 0 || (key in blobs && i < |blobs[key]| && field[i] == blobs[key][i])
  }

  datatype SaveResult = SaveResult(blobs: Store, err: EspErr)

  /**
   * app_nvs_save_sta_creds as written: with a non-NULL configuration it opens
   * the namespace, writes the 32-byte ssid and the 64-byte password blobs,
   * commits, and stops at the first failing open or write. The check of the
   * commit result is inverted, so its code is never returned.
   */
  function Save(config: Option<WifiConfig>, blobs: Store, nvs: NvsResults): (r: SaveResult)
    ensures forall k :: k != SsidKey && k != PasswordKey ==> (k in r.blobs <==> k in blobs)
    ensures forall k :: k in blobs && k != SsidKey && k != PasswordKey ==> r.blobs[k] == blobs[k]
    ensures config.None? ==> r == SaveResult(blobs, EspOk)
    ensures config.Some? ==> r.err == FirstError([nvs.open, nvs.setSsid, nvs.setPassword])
    ensures r.blobs != blobs ==> config.Some? && nvs.open == EspOk && nvs.setSsid == EspOk
  {
    match config
    case None => SaveResult(blobs, EspOk)
    case Some(c) =>
      if nvs.open != EspOk then SaveResult(blobs, nvs.open)
      else if nvs.setSsid != EspOk then SaveResult(blobs, nvs.setSsid)
      else
        var withSsid := blobs[SsidKey := c.ssid[..MaxSsidLength]];
        assert [nvs.open, nvs.setSsid, nvs.setPassword][1..] == [nvs.setSsid, nvs.setPassword];
        assert [nvs.setSsid, nvs.setPassword][1..] == [nvs.setPassword];
        assert FirstError([nvs.setSsid, nvs.setPassword]) == FirstError([nvs.setPassword]);
        if nvs.setPassword != EspOk then SaveResult(withSsid, nvs.setPassword)
        else
          var withBoth := withSsid[PasswordKey := c.password[..MaxPasswordLength]];
          if nvs.commit == EspOk then SaveResult(withBoth, nvs.commit)
          else SaveResult(withBoth, EspOk)
  }

  /**
   * app_nvs_save_sta_creds with the commit check the error message at
   * main/app_nvs.c:63 describes: a failing commit is reported.
   */
  function SaveIntended(config: Option<WifiConfig>, blobs: Store, nvs: NvsResults): (r: SaveResult)
    ensures r.blobs == Save(config, blobs, nvs).blobs
    ensures config.None? ==> r.err == EspOk
    ensures config.Some? ==> r.err == FirstError([nvs.open, nvs.setSsid, nvs.setPassword, nvs.commit])
  {
    match config
    case None => SaveResult(blobs, EspOk)
    case Some(c) =>
      if nvs.open != EspOk then SaveResult(blobs, nvs.open)
      else if nvs.setSsid != EspOk then SaveResult(blobs, nvs.setSsid)
      else
        var withSsid := blobs[SsidKey := c.ssid[..MaxSsidLength]];
        assert [nvs.open, nvs.setSsid, nvs.setPassword, nvs.commit][1..] == [nvs.setSsid, nvs.setPassword, nvs.commit];
        assert [nvs.setSsid, nvs.setPassword, nvs.commit][1..] == [nvs.setPassword, nvs.commit];
        assert FirstError([nvs.setSsid, nvs.setPassword, nvs.commit]) == FirstError([nvs.setPassword, nvs.commit]);
        if nvs.setPassword != EspOk then SaveResult(withSsid, nvs.setPassword)
        else
          var withBoth := withSsid[PasswordKey := c.password[..MaxPasswordLength]];
          assert [nvs.setPassword, nvs.commit][1..] == [nvs.commit];
          assert FirstError([nvs.setPassword, nvs.commit]) == FirstError([nvs.commit]);
          if nvs.commit != EspOk then SaveResult(withBoth, nvs.commit)
          else SaveResult(withBoth, EspOk)
  }

  datatype LoadResult = LoadResult(config: Option<WifiConfig>, found: bool)

  /** The global configuration after a load wrote `c`: a NULL global stays NULL. */
  function Publish(config: Option<WifiConfig>, c: WifiConfig): Option<WifiConfig>
  {
    if config.Some? then Some(c) else None
  }

  /**
   * app_nvs_load_sta_creds: opens the namespace read-only, zeroes the
   * configuration, copies the ssid blob and then the password blob into it,
   * and reports whether the first ssid byte is non-zero. A NULL global
   * configuration is replaced by a local buffer that is never published.
   */
  function Load(config: Option<WifiConfig>, blobs: Store, nvs: NvsResults): (r: LoadResult)
    ensures r.config.Some? <==> config.Some?
    ensures nvs.open != EspOk ==> r == LoadResult(config, false)
    ensures r.found <==>
      && nvs.open == EspOk && nvs.getSsid == EspOk && nvs.getPassword == EspOk
      && SsidKey in blobs && 0 < |blobs[SsidKey]| <= MaxSsidLength
      && PasswordKey in blobs && |blobs[PasswordKey]| <= MaxPasswordLength
      && blobs[SsidKey][0] != 0
    ensures r.found && config.Some? ==>
      r.config == Some(StaConfig(Pad(blobs[SsidKey], MaxSsidLength), Pad(blobs[PasswordKey], MaxPasswordLength)))
    ensures nvs.open == EspOk && r.config.Some? ==>
      FromStoreOrZero(r.config.value.ssid, blobs, SsidKey) && FromStoreOrZero(r.config.value.password, blobs, PasswordKey)
  {
    if nvs.open != EspOk then LoadResult(config, false)
    else
      match GetBlob(blobs, SsidKey, MaxSsidLength, nvs.getSsid)
      case None => LoadResult(Publish(config, ZeroConfig), false)
      case Some(ssid) =>
        var withSsid: WifiConfig := ZeroConfig.(ssid := Pad(ssid, MaxSsidLength));
        match GetBlob(blobs, PasswordKey, MaxPasswordLength, nvs.getPassword)
        case None => LoadResult(Publish(config, withSsid), false)
        case Some(password) =>
          var full: WifiConfig := withSsid.(password := Pad(password, MaxPasswordLength));
          LoadResult(Publish(config, full), full.ssid[0] != 0)
  }

  datatype ClearResult = ClearResult(blobs: Store, err: EspErr)

  /**
   * app_nvs_clear_sta_creds: opens the namespace, erases every key in it and
   * commits, returning the first failing call's code.
   */
  function Clear(blobs: Store, nvs: NvsResults): (r: ClearResult)
    ensures r.err == FirstError([nvs.open, nvs.eraseAll, nvs.commit])
    ensures nvs.open == EspOk && nvs.eraseAll == EspOk ==> r.blobs == map[]
    ensures nvs.open != EspOk || nvs.eraseAll != EspOk ==> r.blobs == blobs
  {
    if nvs.open != EspOk then ClearResult(blobs, nvs.open)
    else if nvs.eraseAll != EspOk then ClearResult(blobs, nvs.eraseAll)
    else
      assert [nvs.open, nvs.eraseAll, nvs.commit][1..] == [nvs.eraseAll, nvs.commit];
      assert [nvs.eraseAll, nvs.commit][1..] == [nvs.commit];
      assert FirstError([nvs.eraseAll, nvs.commit]) == FirstError([nvs.commit]);
      if nvs.commit != EspOk then ClearResult(map[], nvs.commit)
      else ClearResult(map[], EspOk)
  }

  /** A successful save writes the configuration's ssid and password at their full fixed lengths. */
  lemma SaveWritesFullBlobs(c: WifiConfig, blobs: Store, nvs: NvsResults)
    requires nvs.open == EspOk && nvs.setSsid == EspOk && nvs.setPassword == EspOk
    ensures var r := Save(Some(c), blobs, nvs);
      && r.err == EspOk
      && SsidKey in r.blobs && r.blobs[SsidKey] == c.ssid && |r.blobs[SsidKey]| == MaxSsidLength
      && PasswordKey in r.blobs && r.blobs[PasswordKey] == c.password && |r.blobs[PasswordKey]| == MaxPasswordLength
  {
  }

  /** When the ssid write fails the password is not written. */
  lemma SaveSsidFailureWritesNothing(c: WifiConfig, blobs: Store, nvs: NvsResults)
    requires nvs.open == EspOk && nvs.setSsid != EspOk
    ensures Save(Some(c), blobs, nvs) == SaveResult(blobs, nvs.setSsid)
  {
  }

  /** Save's outcome does not depend on what the commit returns. */
  lemma SaveIgnoresCommit(config: Option<WifiConfig>, blobs: Store, nvs: NvsResults, commit: EspErr)
    ensures Save(config, blobs, nvs.(commit := commit)) == Save(config, blobs, nvs)
  {
  }

  /** A concrete case: the commit fails with ESP_FAIL and the save still reports ESP_OK. */
  lemma SaveReportsOkWhenCommitFails(c: WifiConfig, blobs: Store)
    ensures Save(Some(c), blobs, AllOk.(commit := EspFail)).err == EspOk
    ensures SaveIntended(Some(c), blobs, AllOk.(commit := EspFail)).err == EspFail
  {
  }

  /** Save followed by load restores exactly the saved configuration. */
  lemma LoadAfterSave(c: WifiConfig, blobs: Store, target: Option<WifiConfig>, saveNvs: NvsResults, loadNvs: NvsResults)
    requires saveNvs.open == EspOk && saveNvs.setSsid == EspOk && saveNvs.setPassword == EspOk
    requires loadNvs.open == EspOk && loadNvs.getSsid == EspOk && loadNvs.getPassword == EspOk
    ensures Load(target, Save(Some(c), blobs, saveNvs).blobs, loadNvs)
         == LoadResult(Publish(target, c), c.ssid[0] != 0)
  {
    SaveWritesFullBlobs(c, blobs, saveNvs);
    assert Pad(c.ssid, MaxSsidLength) == c.ssid;
    assert Pad(c.password, MaxPasswordLength) == c.password;
  }

  /** After a successful erase no credentials can be loaded. */
  lemma LoadAfterClear(config: Option<WifiConfig>, blobs: Store, clearNvs: NvsResults, loadNvs: NvsResults)
    requires clearNvs.open == EspOk && clearNvs.eraseAll == EspOk
    ensures !Load(config, Clear(blobs, clearNvs).blobs, loadNvs).found
  {
  }

  /**
   * The NVS handle of namespace "stacreds" together with the wifi_config_t
   * buffer that wifi_app_get_wifi_config hands to this file.
   */
  class CredStore {
    /** Contents of the namespace "stacreds". */
    var blobs: Store
    /** The global configuration buffer; None stands for a NULL pointer. */
    var wifiConfig: Option<WifiConfig>

    constructor (blobs: Store)
      ensures this.blobs == blobs && wifiConfig == None
    {
      this.blobs := blobs;
      wifiConfig := None;
    }

    /** nvs_set_blob: the library reports `result`; the blob is stored only when that is ESP_OK. */
    method SetBlob(key: string, value: Blob, result: EspErr) returns (err: EspErr)
      modifies this
      ensures err == result
      ensures blobs == (if result == EspOk then old(blobs)[key := value] else old(blobs))
      ensures wifiConfig == old(wifiConfig)
    {
      if result == EspOk {
        blobs := blobs[key := value];
      }
      err := result;
    }

    /** nvs_erase_all: the library reports `result`; every key goes only when that is ESP_OK. */
    method EraseAll(result: EspErr) returns (err: EspErr)
      modifies this
      ensures err == result
      ensures blobs == (if result == EspOk then map[] else old(blobs))
      ensures wifiConfig == old(wifiConfig)
    {
      if result == EspOk {
        blobs := map[];
      }
      err := result;
    }

    method SaveStaCreds(nvs: NvsResults) returns (err: EspErr)
      modifies this
      ensures SaveResult(blobs, err) == Save(old(wifiConfig), old(blobs), nvs)
      ensures wifiConfig == old(wifiConfig)
    {
      if wifiConfig.Some? {
        var config := wifiConfig.value;
        err := nvs.open;
        if err != EspOk {
          return;
        }
        err := SetBlob(SsidKey, config.ssid[..MaxSsidLength], nvs.setSsid);
        if err != EspOk {
          return;
        }
        err := SetBlob(PasswordKey, config.password[..MaxPasswordLength], nvs.setPassword);
        if err != EspOk {
          return;
        }
        err := nvs.commit;
        if err == EspOk {
          return;
        }
      }
      err := EspOk;
    }

    method LoadStaCreds(nvs: NvsResults) returns (found: bool)
      modifies this
      ensures LoadResult(wifiConfig, found) == Load(old(wifiConfig), old(blobs), nvs)
      ensures blobs == old(blobs)
    {
      if nvs.open != EspOk {
        return false;
      }
      var published := wifiConfig.Some?;
      var config: WifiConfig := ZeroConfig;
      if published {
        wifiConfig := Some(config);
      }
      var ssid := GetBlob(blobs, SsidKey, MaxSsidLength, nvs.getSsid);
      if ssid.None? {
        return false;
      }
      config := config.(ssid := Pad(ssid.value, MaxSsidLength));
      if published {
        wifiConfig := Some(config);
      }
      var password := GetBlob(blobs, PasswordKey, MaxPasswordLength, nvs.getPassword);
      if password.None? {
        return false;
      }
      config := config.(password := Pad(password.value, MaxPasswordLength));
      if published {
        wifiConfig := Some(config);
      }
      found := config.ssid[0] != 0;
    }

    method ClearStaCreds(nvs: NvsResults) returns (err: EspErr)
      modifies this
      ensures ClearResult(blobs, err) == Clear(old(blobs), nvs)
      ensures wifiConfig == old(wifiConfig)
    {
      err := nvs.open;
      if err != EspOk {
        return;
      }
      err := EraseAll(nvs.eraseAll);
      if err != EspOk {
        return;
      }
      err := nvs.commit;
      if err != EspOk {
        return;
      }
      err := EspOk;
    }
  }
}
