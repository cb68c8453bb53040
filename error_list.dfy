/**
 * The table of ESP-IDF status codes and their symbolic names that the debug helpers consult.
 * Each entry is the pair `{MACRO, "MACRO"}` of a vendor macro, compiled in only when that macro is
 * defined. The model keeps every candidate macro with the value its annotation gives, and builds the
 * table of a build by keeping the macros that build defines, in table order.
 */
module ErrorList {
  import opened Wrappers

  /** A vendor status macro: its spelling and its value. */
  datatype Macro = Macro(name: string, value: int)

  /** One table entry, `errorMessage { code, msg }`. */
  datatype ErrorMessage = ErrorMessage(code: int, msg: string)

  /** `ErrorCodeAndName(err)`: the macro's value paired with the macro's own spelling. */
  function ErrorCodeAndName(m: Macro): (e: ErrorMessage)
    ensures e.code == m.value && e.msg == m.name
  {
    ErrorMessage(m.value, m.name)
  }

  /** Adjacent values increase. */
  predicate Ascending(s: seq<Macro>) {
    forall k :: 0 < k < |s| ==> s[k - 1].value < s[k].value
  }

  /** Every value is smaller than every later value. */
  predicate Increasing(s: seq<Macro>) {
    forall i, j :: 0 <= i < j < |s| ==> s[i].value < s[j].value
  }

  /** Every code is smaller than every later code, so no code occurs twice. */
  predicate CodesIncreasing(t: seq<ErrorMessage>) {
    forall i, j :: 0 <= i < j < |t| ==> t[i].code < t[j].code
  }

  lemma {:induction false} AscendingIsIncreasing(s: seq<Macro>)
    requires Ascending(s)
    ensures Increasing(s)
  {
    if |s| > 1 {
      AscendingIsIncreasing(s[1..]);
      forall i, j | 0 <= i < j < |s|
        ensures s[i].value < s[j].value
      {
        if i > 0 {
          assert s[i].value == s[1..][i - 1].value && s[j].value == s[1..][j - 1].value;
        } else if j > 1 {
          assert s[1].value < s[1..][j - 1].value;
        }
      }
    }
  }

  lemma ConcatAscending(a: seq<Macro>, b: seq<Macro>)
    requires Ascending(a) && Ascending(b)
    requires a != [] && b != [] && a[|a| - 1].value < b[0].value
    ensures Ascending(a + b)
  {
    forall k | 0 < k < |a + b|
      ensures (a + b)[k - 1].value < (a + b)[k].value
    {
      if k == |a| {
        assert (a + b)[k - 1] == a[|a| - 1] && (a + b)[k] == b[0];
      } else if k < |a| {
        assert (a + b)[k - 1] == a[k - 1] && (a + b)[k] == a[k];
      } else {
        assert (a + b)[k - 1] == b[k - 1 - |a|] && (a + b)[k] == b[k - |a|];
      }
    }
  }

  /** The compiled table of a build that defines exactly the macros named in `defined`: the `#ifdef` chain. */
  function Select(macros: seq<Macro>, defined: set<string>): (t: seq<ErrorMessage>)
    ensures |t| <= |macros|
    ensures forall k :: 0 <= k < |t| ==> t[k].msg in defined && Macro(t[k].msg, t[k].code) in macros
    ensures (forall k :: 0 <= k < |macros| ==> macros[k].name in defined) ==> |t| == |macros|
  {
    if macros == [] then []
    else
      (if macros[0].name in defined then [ErrorCodeAndName(macros[0])] else [])
        + Select(macros[1..], defined)
  }

  /** `ErrorMessageTable` as compiled against the vendor headers of one build. */
  function ErrorMessageTable(defined: set<string>): (t: seq<ErrorMessage>)
    ensures |t| <= |SdkMacros|
    ensures forall k :: 0 <= k < |t| ==> t[k].msg in defined && Macro(t[k].msg, t[k].code) in SdkMacros
  {
    Select(SdkMacros, defined)
  }

  /**
   * First-match search by code. The answer is the name of the first entry with that code, and
   * there is no answer exactly when no entry has that code.
   */
  function Lookup(table: seq<ErrorMessage>, code: int): (r: Option<string>)
    ensures r.None? <==> forall k :: 0 <= k < |table| ==> table[k].code != code
    ensures r.Some? ==> exists k :: 0 <= k < |table| && table[k] == ErrorMessage(code, r.value)
                          && forall j :: 0 <= j < k ==> table[j].code != code
  {
    if table == [] then None
    else if table[0].code == code then Some(table[0].msg)
    else
      Lookup(table[1..], code)
  }

  /** Selecting from two runs of macros selects from each run in turn: the table keeps the macros' order. */
  lemma {:induction false} SelectAppend(a: seq<Macro>, b: seq<Macro>, defined: set<string>)
    ensures Select(a + b, defined) == Select(a, defined) + Select(b, defined)
  {
    if a != [] {
      assert (a + b)[1..] == a[1..] + b;
      SelectAppend(a[1..], b, defined);
    } else {
      assert a + b == b;
    }
  }

  /** An entry is in the table exactly when its macro is a candidate and is defined; its name is the macro's spelling. */
  lemma {:induction false} SelectMembers(macros: seq<Macro>, defined: set<string>, e: ErrorMessage)
    ensures e in Select(macros, defined) <==> Macro(e.msg, e.code) in macros && e.msg in defined
  {
    if macros != [] {
      SelectMembers(macros[1..], defined, e);
      assert macros == [macros[0]] + macros[1..];
    }
  }

  /** Keeping some macros of an increasing run keeps the codes increasing. */
  lemma {:induction false} SelectIncreasing(macros: seq<Macro>, defined: set<string>)
    requires Increasing(macros)
    ensures CodesIncreasing(Select(macros, defined))
  {
    if macros != [] {
      var rest := macros[1..];
      assert Increasing(rest) by {
        forall i, j | 0 <= i < j < |rest| ensures rest[i].value < rest[j].value {
          assert rest[i] == macros[i + 1] && rest[j] == macros[j + 1];
        }
      }
      SelectIncreasing(rest, defined);
      if macros[0].name in defined {
        assert forall j :: 0 <= j < |rest| ==> macros[0].value < rest[j].value by {
          forall j | 0 <= j < |rest| ensures macros[0].value < rest[j].value {
            assert rest[j] == macros[j + 1];
          }
        }
        SelectAbove(rest, defined, macros[0].value);
        PrependIncreasing(ErrorCodeAndName(macros[0]), Select(rest, defined));
      }
    }
  }

  /** Every code selected from macros whose values all exceed `v` exceeds `v`. */
  lemma SelectAbove(macros: seq<Macro>, defined: set<string>, v: int)
    requires forall j :: 0 <= j < |macros| ==> v < macros[j].value
    ensures forall k :: 0 <= k < |Select(macros, defined)| ==> v < Select(macros, defined)[k].code
  {
    var t := Select(macros, defined);
    forall k | 0 <= k < |t| ensures v < t[k].code {
      var m := Macro(t[k].msg, t[k].code);
      var j :| 0 <= j < |macros| && macros[j] == m;
    }
  }

  /** An entry below every code of an increasing table can go in front of it. */
  lemma PrependIncreasing(e: ErrorMessage, tail: seq<ErrorMessage>)
    requires CodesIncreasing(tail)
    requires forall k :: 0 <= k < |tail| ==> e.code < tail[k].code
    ensures CodesIncreasing([e] + tail)
  {
    var t := [e] + tail;
    forall i, j | 0 <= i < j < |t| ensures t[i].code < t[j].code {
      assert t[j] == tail[j - 1];
      if i > 0 {
        assert t[i] == tail[i - 1];
      }
    }
  }

  /** Annotated values strictly increase through the whole table. */
  lemma CommonAndNvsBlocksAscending()
    ensures Ascending(EspErrBlock) && Ascending(EsslBlock) && Ascending(NvsBlock)
  {
  }

  lemma UlpToImageBlocksAscending()
    ensures Ascending(UlpBlock) && Ascending(OtaBlock) && Ascending(EfuseBlock) && Ascending(ImageFormatBlock)
  {
  }

  lemma WifiBlocksAscending()
    ensures Ascending(WifiBaseBlock) && Ascending(WifiBlock)
  {
  }

  lemma WpsToMeshBaseBlocksAscending()
    ensures Ascending(WpsBlock) && Ascending(EspNowBlock) && Ascending(MeshBaseBlock)
  {
  }

  lemma MeshBlockAscending()
    ensures Ascending(MeshBlock)
  {
  }

  lemma NetifToFlashBlocksAscending()
    ensures Ascending(NetifBlock) && Ascending(FlashBaseBlock) && Ascending(SpiFlashBlock) && Ascending(FlashErrBlock)
  {
  }

  lemma HttpClientBlockAscending()
    ensures Ascending(HttpClientBlock)
  {
  }

  lemma EspTlsBlockAscending()
    ensures Ascending(EspTlsBlock)
  {
  }

  lemma OtaPingHttpdBlocksAscending()
    ensures Ascending(HttpsOtaBlock) && Ascending(PingBlock) && Ascending(HttpServerBlock)
  {
  }

  lemma SdkMacrosIncreasing()
    ensures Increasing(SdkMacros)
  {
    CommonAndNvsBlocksAscending();
    UlpToImageBlocksAscending();
    WifiBlocksAscending();
    WpsToMeshBaseBlocksAscending();
    MeshBlockAscending();
    NetifToFlashBlocksAscending();
    HttpClientBlockAscending();
    EspTlsBlockAscending();
    OtaPingHttpdBlocksAscending();
    // Each running prefix of the table stays ascending when the next block is appended.
    var upToEssl := EspErrBlock + EsslBlock;
    ConcatAscending(EspErrBlock, EsslBlock);
    var upToNvs := upToEssl + NvsBlock;
    ConcatAscending(upToEssl, NvsBlock);
    var upToUlp := upToNvs + UlpBlock;
    ConcatAscending(upToNvs, UlpBlock);
    var upToOta := upToUlp + OtaBlock;
    ConcatAscending(upToUlp, OtaBlock);
    var upToEfuse := upToOta + EfuseBlock;
    ConcatAscending(upToOta, EfuseBlock);
    var upToImageFormat := upToEfuse + ImageFormatBlock;
    ConcatAscending(upToEfuse, ImageFormatBlock);
    var upToWifiBase := upToImageFormat + WifiBaseBlock;
    ConcatAscending(upToImageFormat, WifiBaseBlock);
    var upToWifi := upToWifiBase + WifiBlock;
    ConcatAscending(upToWifiBase, WifiBlock);
    var upToWps := upToWifi + WpsBlock;
    ConcatAscending(upToWifi, WpsBlock);
    var upToEspNow := upToWps + EspNowBlock;
    ConcatAscending(upToWps, EspNowBlock);
    var upToMeshBase := upToEspNow + MeshBaseBlock;
    ConcatAscending(upToEspNow, MeshBaseBlock);
    var upToMesh := upToMeshBase + MeshBlock;
    ConcatAscending(upToMeshBase, MeshBlock);
    var upToNetif := upToMesh + NetifBlock;
    ConcatAscending(upToMesh, NetifBlock);
    var upToFlashBase := upToNetif + FlashBaseBlock;
    ConcatAscending(upToNetif, FlashBaseBlock);
    var upToSpiFlash := upToFlashBase + SpiFlashBlock;
    ConcatAscending(upToFlashBase, SpiFlashBlock);
    var upToFlashErr := upToSpiFlash + FlashErrBlock;
    ConcatAscending(upToSpiFlash, FlashErrBlock);
    var upToHttpClient := upToFlashErr + HttpClientBlock;
    ConcatAscending(upToFlashErr, HttpClientBlock);
    var upToEspTls := upToHttpClient + EspTlsBlock;
    ConcatAscending(upToHttpClient, EspTlsBlock);
    var upToHttpsOta := upToEspTls + HttpsOtaBlock;
    ConcatAscending(upToEspTls, HttpsOtaBlock);
    var upToPing := upToHttpsOta + PingBlock;
    ConcatAscending(upToHttpsOta, PingBlock);
    var upToHttpServer := upToPing + HttpServerBlock;
    ConcatAscending(upToPing, HttpServerBlock);
    assert upToHttpServer == SdkMacros;
    AscendingIsIncreasing(SdkMacros);
  }

  /** When no code occurs twice, first-match lookup finds a name exactly when that entry is in the table. */
  lemma LookupUnique(t: seq<ErrorMessage>, code: int, name: string)
    requires CodesIncreasing(t)
    ensures Lookup(t, code) == Some(name) <==> ErrorMessage(code, name) in t
  {
    var r := Lookup(t, code);
    if ErrorMessage(code, name) in t {
      var i :| 0 <= i < |t| && t[i] == ErrorMessage(code, name);
      var k :| 0 <= k < |t| && t[k] == ErrorMessage(code, r.value) && forall j :: 0 <= j < k ==> t[j].code != code;
      assert t[k].code == t[i].code;
      assert k == i;
    }
  }

  /**
   * In any build, looking up a code finds a name exactly when a defined macro has that value, and then
   * finds that macro's name: codes are unique, so first-match lookup is unambiguous.
   */
  lemma LookupFindsDefinedMacro(defined: set<string>, code: int, name: string)
    ensures Lookup(ErrorMessageTable(defined), code) == Some(name)
        <==> Macro(name, code) in SdkMacros && name in defined
  {
    SdkMacrosIncreasing();
    SelectIncreasing(SdkMacros, defined);
    SelectMembers(SdkMacros, defined, ErrorMessage(code, name));
    LookupUnique(ErrorMessageTable(defined), code, name);
  }

  /** A code that no candidate macro has is never found, whichever macros the build defines. */
  lemma LookupUnknownCode(macros: seq<Macro>, defined: set<string>, code: int)
    requires forall k :: 0 <= k < |macros| ==> macros[k].value != code
    ensures Lookup(Select(macros, defined), code) == None
  {
    var t := Select(macros, defined);
    forall k | 0 <= k < |t| ensures t[k].code != code {
      SelectMembers(macros, defined, t[k]);
    }
  }

  /** ESP_FAIL names -1 and ESP_OK names 0 in every build that defines them. */
  lemma FailAndOk(defined: set<string>)
    ensures "ESP_FAIL" in defined ==> Lookup(ErrorMessageTable(defined), -1) == Some("ESP_FAIL")
    ensures "ESP_OK" in defined ==> Lookup(ErrorMessageTable(defined), 0) == Some("ESP_OK")
  {
    assert SdkMacros[0] == Macro("ESP_FAIL", -1) && SdkMacros[1] == Macro("ESP_OK", 0);
    LookupFindsDefinedMacro(defined, -1, "ESP_FAIL");
    LookupFindsDefinedMacro(defined, 0, "ESP_OK");
  }

  /** The NVS macros run without a gap from ESP_ERR_NVS_BASE = 4352 to 4376. */
  lemma NvsBlockConsecutive()
    ensures |NvsBlock| == 25 && NvsBlock[0] == Macro("ESP_ERR_NVS_BASE", 4352)
    ensures forall k :: 0 <= k < |NvsBlock| ==> NvsBlock[k].value == 4352 + k
  {
  }

  /** The Wi-Fi codes skip 12304 and 12305: no build's table has a name for them. */
  lemma WifiGap(defined: set<string>)
    ensures Lookup(ErrorMessageTable(defined), 12304) == None
    ensures Lookup(ErrorMessageTable(defined), 12305) == None
  {
    SdkMacrosIncreasing();
    var p := |EspErrBlock + EsslBlock + NvsBlock + UlpBlock + OtaBlock + EfuseBlock + ImageFormatBlock + WifiBaseBlock| + 14;
    assert SdkMacros[p].value == 12303 && SdkMacros[p + 1].value == 12306;
    NoValueInGap(SdkMacros, p, 12304);
    NoValueInGap(SdkMacros, p, 12305);
    LookupUnknownCode(SdkMacros, defined, 12304);
    LookupUnknownCode(SdkMacros, defined, 12305);
  }

  /** In an increasing list, no value lies strictly between two neighbours. */
  lemma NoValueInGap(s: seq<Macro>, p: nat, v: int)
    requires Increasing(s) && p + 1 < |s|
    requires s[p].value < v < s[p + 1].value
    ensures forall k :: 0 <= k < |s| ==> s[k].value != v
  {
    forall k | 0 <= k < |s| ensures s[k].value != v {
      if k < p {
        assert s[k].value < s[p].value;
      } else if p + 1 < k {
        assert s[p + 1].value < s[k].value;
      }
    }
  }

  /** The table lists 172 candidate entries. */
  lemma SdkMacrosCount()
    ensures |SdkMacros| == 172
  {
  }

  /** Every candidate macro of the table, in table order. */
  const SdkMacros: seq<Macro> :=
    EspErrBlock
    + EsslBlock
    + NvsBlock
    + UlpBlock
    + OtaBlock
    + EfuseBlock
    + ImageFormatBlock
    + WifiBaseBlock
    + WifiBlock
    + WpsBlock
    + EspNowBlock
    + MeshBaseBlock
    + MeshBlock
    + NetifBlock
    + FlashBaseBlock
    + SpiFlashBlock
    + FlashErrBlock
    + HttpClientBlock
    + EspTlsBlock
    + HttpsOtaBlock
    + PingBlock
    + HttpServerBlock

  /** Entries under the `components/esp_common/include/esp_err.h` heading (ErrorList.h:14-50). */
  const EspErrBlock: seq<Macro> := [
    Macro("ESP_FAIL", -1),
    Macro("ESP_OK", 0),
    Macro("ESP_ERR_NO_MEM", 257),
    Macro("ESP_ERR_INVALID_ARG", 258),
    Macro("ESP_ERR_INVALID_STATE", 259),
    Macro("ESP_ERR_INVALID_SIZE", 260),
    Macro("ESP_ERR_NOT_FOUND", 261),
    Macro("ESP_ERR_NOT_SUPPORTED", 262),
    Macro("ESP_ERR_TIMEOUT", 263),
    Macro("ESP_ERR_INVALID_RESPONSE", 264),
    Macro("ESP_ERR_INVALID_CRC", 265),
    Macro("ESP_ERR_INVALID_VERSION", 266),
    Macro("ESP_ERR_INVALID_MAC", 267)
  ]

  /** Entries under the `components/esp_serial_slave_link/include/esp_serial_slave_link/essl.h` heading (ErrorList.h:54-54). */
  const EsslBlock: seq<Macro> := [
    Macro("ESP_ERR_NOT_FINISHED", 513)
  ]

  /** Entries under the `components/nvs_flash/include/nvs.h` heading (ErrorList.h:58-149). */
  const NvsBlock: seq<Macro> := [
    Macro("ESP_ERR_NVS_BASE", 4352),
    Macro("ESP_ERR_NVS_NOT_INITIALIZED", 4353),
    Macro("ESP_ERR_NVS_NOT_FOUND", 4354),
    Macro("ESP_ERR_NVS_TYPE_MISMATCH", 4355),
    Macro("ESP_ERR_NVS_READ_ONLY", 4356),
    Macro("ESP_ERR_NVS_NOT_ENOUGH_SPACE", 4357),
    Macro("ESP_ERR_NVS_INVALID_NAME", 4358),
    Macro("ESP_ERR_NVS_INVALID_HANDLE", 4359),
    Macro("ESP_ERR_NVS_REMOVE_FAILED", 4360),
    Macro("ESP_ERR_NVS_KEY_TOO_LONG", 4361),
    Macro("ESP_ERR_NVS_PAGE_FULL", 4362),
    Macro("ESP_ERR_NVS_INVALID_STATE", 4363),
    Macro("ESP_ERR_NVS_INVALID_LENGTH", 4364),
    Macro("ESP_ERR_NVS_NO_FREE_PAGES", 4365),
    Macro("ESP_ERR_NVS_VALUE_TOO_LONG", 4366),
    Macro("ESP_ERR_NVS_PART_NOT_FOUND", 4367),
    Macro("ESP_ERR_NVS_NEW_VERSION_FOUND", 4368),
    Macro("ESP_ERR_NVS_XTS_ENCR_FAILED", 4369),
    Macro("ESP_ERR_NVS_XTS_DECR_FAILED", 4370),
    Macro("ESP_ERR_NVS_XTS_CFG_FAILED", 4371),
    Macro("ESP_ERR_NVS_XTS_CFG_NOT_FOUND", 4372),
    Macro("ESP_ERR_NVS_ENCR_NOT_SUPPORTED", 4373),
    Macro("ESP_ERR_NVS_KEYS_NOT_INITIALIZED", 4374),
    Macro("ESP_ERR_NVS_CORRUPT_KEY_PART", 4375),
    Macro("ESP_ERR_NVS_CONTENT_DIFFERS", 4376)
  ]

  /** Entries under the `components/ulp/include/ulp_common.h` heading (ErrorList.h:155-173). */
  const UlpBlock: seq<Macro> := [
    Macro("ESP_ERR_ULP_BASE", 4608),
    Macro("ESP_ERR_ULP_SIZE_TOO_BIG", 4609),
    Macro("ESP_ERR_ULP_INVALID_LOAD_ADDR", 4610),
    Macro("ESP_ERR_ULP_DUPLICATE_LABEL", 4611),
    Macro("ESP_ERR_ULP_UNDEFINED_LABEL", 4612),
    Macro("ESP_ERR_ULP_BRANCH_OUT_OF_RANGE", 4613)
  ]

  /** Entries under the `components/app_update/include/esp_ota_ops.h` heading (ErrorList.h:178-201). */
  const OtaBlock: seq<Macro> := [
    Macro("ESP_ERR_OTA_BASE", 5376),
    Macro("ESP_ERR_OTA_PARTITION_CONFLICT", 5377),
    Macro("ESP_ERR_OTA_SELECT_INFO_INVALID", 5378),
    Macro("ESP_ERR_OTA_VALIDATE_FAILED", 5379),
    Macro("ESP_ERR_OTA_SMALL_SEC_VER", 5380),
    Macro("ESP_ERR_OTA_ROLLBACK_FAILED", 5381),
    Macro("ESP_ERR_OTA_ROLLBACK_INVALID_STATE", 5382)
  ]

  /** Entries under the `components/efuse/include/esp_efuse.h` heading (ErrorList.h:210-223). */
  const EfuseBlock: seq<Macro> := [
    Macro("ESP_ERR_EFUSE", 5632),
    Macro("ESP_OK_EFUSE_CNT", 5633),
    Macro("ESP_ERR_EFUSE_CNT_IS_FULL", 5634),
    Macro("ESP_ERR_EFUSE_REPEATED_PROG", 5635),
    Macro("ESP_ERR_CODING", 5636)
  ]

  /** Entries under the `components/bootloader_support/include/esp_image_format.h` heading (ErrorList.h:227-233). */
  const ImageFormatBlock: seq<Macro> := [
    Macro("ESP_ERR_IMAGE_BASE", 8192),
    Macro("ESP_ERR_IMAGE_FLASH_FAIL", 8193),
    Macro("ESP_ERR_IMAGE_INVALID", 8194)
  ]

  /** Entries under the `components/esp_common/include/esp_err.h` heading (ErrorList.h:237-237). */
  const WifiBaseBlock: seq<Macro> := [
    Macro("ESP_ERR_WIFI_BASE", 12288)
  ]

  /** Entries under the `components/esp_wifi/include/esp_wifi.h` heading (ErrorList.h:241-293). */
  const WifiBlock: seq<Macro> := [
    Macro("ESP_ERR_WIFI_NOT_INIT", 12289),
    Macro("ESP_ERR_WIFI_NOT_STARTED", 12290),
    Macro("ESP_ERR_WIFI_NOT_STOPPED", 12291),
    Macro("ESP_ERR_WIFI_IF", 12292),
    Macro("ESP_ERR_WIFI_MODE", 12293),
    Macro("ESP_ERR_WIFI_STATE", 12294),
    Macro("ESP_ERR_WIFI_CONN", 12295),
    Macro("ESP_ERR_WIFI_NVS", 12296),
    Macro("ESP_ERR_WIFI_MAC", 12297),
    Macro("ESP_ERR_WIFI_SSID", 12298),
    Macro("ESP_ERR_WIFI_PASSWORD", 12299),
    Macro("ESP_ERR_WIFI_TIMEOUT", 12300),
    Macro("ESP_ERR_WIFI_WAKE_FAIL", 12301),
    Macro("ESP_ERR_WIFI_WOULD_BLOCK", 12302),
    Macro("ESP_ERR_WIFI_NOT_CONNECT", 12303),
    Macro("ESP_ERR_WIFI_POST", 12306),
    Macro("ESP_ERR_WIFI_INIT_STATE", 12307),
    Macro("ESP_ERR_WIFI_STOP_STATE", 12308)
  ]

  /** Entries under the `components/wpa_supplicant/include/esp_supplicant/esp_wps.h` heading (ErrorList.h:297-303). */
  const WpsBlock: seq<Macro> := [
    Macro("ESP_ERR_WIFI_REGISTRAR", 12339),
    Macro("ESP_ERR_WIFI_WPS_TYPE", 12340),
    Macro("ESP_ERR_WIFI_WPS_SM", 12341)
  ]

  /** Entries under the `components/esp_wifi/include/esp_now.h` heading (ErrorList.h:307-331). */
  const EspNowBlock: seq<Macro> := [
    Macro("ESP_ERR_ESPNOW_BASE", 12388),
    Macro("ESP_ERR_ESPNOW_NOT_INIT", 12389),
    Macro("ESP_ERR_ESPNOW_ARG", 12390),
    Macro("ESP_ERR_ESPNOW_NO_MEM", 12391),
    Macro("ESP_ERR_ESPNOW_FULL", 12392),
    Macro("ESP_ERR_ESPNOW_NOT_FOUND", 12393),
    Macro("ESP_ERR_ESPNOW_INTERNAL", 12394),
    Macro("ESP_ERR_ESPNOW_EXIST", 12395),
    Macro("ESP_ERR_ESPNOW_IF", 12396)
  ]

  /** Entries under the `components/esp_common/include/esp_err.h` heading (ErrorList.h:335-335). */
  const MeshBaseBlock: seq<Macro> := [
    Macro("ESP_ERR_MESH_BASE", 16384)
  ]

  /** Entries under the `components/esp_wifi/include/esp_mesh.h` heading (ErrorList.h:339-402). */
  const MeshBlock: seq<Macro> := [
    Macro("ESP_ERR_MESH_WIFI_NOT_START", 16385),
    Macro("ESP_ERR_MESH_NOT_INIT", 16386),
    Macro("ESP_ERR_MESH_NOT_CONFIG", 16387),
    Macro("ESP_ERR_MESH_NOT_START", 16388),
    Macro("ESP_ERR_MESH_NOT_SUPPORT", 16389),
    Macro("ESP_ERR_MESH_NOT_ALLOWED", 16390),
    Macro("ESP_ERR_MESH_NO_MEMORY", 16391),
    Macro("ESP_ERR_MESH_ARGUMENT", 16392),
    Macro("ESP_ERR_MESH_EXCEED_MTU", 16393),
    Macro("ESP_ERR_MESH_TIMEOUT", 16394),
    Macro("ESP_ERR_MESH_DISCONNECTED", 16395),
    Macro("ESP_ERR_MESH_QUEUE_FAIL", 16396),
    Macro("ESP_ERR_MESH_QUEUE_FULL", 16397),
    Macro("ESP_ERR_MESH_NO_PARENT_FOUND", 16398),
    Macro("ESP_ERR_MESH_NO_ROUTE_FOUND", 16399),
    Macro("ESP_ERR_MESH_OPTION_NULL", 16400),
    Macro("ESP_ERR_MESH_OPTION_UNKNOWN", 16401),
    Macro("ESP_ERR_MESH_XON_NO_WINDOW", 16402),
    Macro("ESP_ERR_MESH_INTERFACE", 16403),
    Macro("ESP_ERR_MESH_DISCARD_DUPLICATE", 16404),
    Macro("ESP_ERR_MESH_DISCARD", 16405),
    Macro("ESP_ERR_MESH_VOTING", 16406)
  ]

  /** Entries under the `components/esp_netif/include/esp_netif_types.h` heading (ErrorList.h:406-436). */
  const NetifBlock: seq<Macro> := [
    Macro("ESP_ERR_ESP_NETIF_BASE", 20480),
    Macro("ESP_ERR_ESP_NETIF_INVALID_PARAMS", 20481),
    Macro("ESP_ERR_ESP_NETIF_IF_NOT_READY", 20482),
    Macro("ESP_ERR_ESP_NETIF_DHCPC_START_FAILED", 20483),
    Macro("ESP_ERR_ESP_NETIF_DHCP_ALREADY_STARTED", 20484),
    Macro("ESP_ERR_ESP_NETIF_DHCP_ALREADY_STOPPED", 20485),
    Macro("ESP_ERR_ESP_NETIF_NO_MEM", 20486),
    Macro("ESP_ERR_ESP_NETIF_DHCP_NOT_STOPPED", 20487),
    Macro("ESP_ERR_ESP_NETIF_DRIVER_ATTACH_FAILED", 20488),
    Macro("ESP_ERR_ESP_NETIF_INIT_FAILED", 20489),
    Macro("ESP_ERR_ESP_NETIF_DNS_NOT_CONFIGURED", 20490)
  ]

  /** Entries under the `components/esp_common/include/esp_err.h` heading (ErrorList.h:440-440). */
  const FlashBaseBlock: seq<Macro> := [
    Macro("ESP_ERR_FLASH_BASE", 24576)
  ]

  /** Entries under the `components/spi_flash/include/esp_spi_flash.h` heading (ErrorList.h:444-447). */
  const SpiFlashBlock: seq<Macro> := [
    Macro("ESP_ERR_FLASH_OP_FAIL", 24577),
    Macro("ESP_ERR_FLASH_OP_TIMEOUT", 24578)
  ]

  /** Entries under the `components/soc/include/hal/esp_flash_err.h` heading (ErrorList.h:451-460). */
  const FlashErrBlock: seq<Macro> := [
    Macro("ESP_ERR_FLASH_NOT_INITIALISED", 24579),
    Macro("ESP_ERR_FLASH_UNSUPPORTED_HOST", 24580),
    Macro("ESP_ERR_FLASH_UNSUPPORTED_CHIP", 24581),
    Macro("ESP_ERR_FLASH_PROTECTED", 24582)
  ]

  /** Entries under the `components/esp_http_client/include/esp_http_client.h` heading (ErrorList.h:464-486). */
  const HttpClientBlock: seq<Macro> := [
    Macro("ESP_ERR_HTTP_BASE", 28672),
    Macro("ESP_ERR_HTTP_MAX_REDIRECT", 28673),
    Macro("ESP_ERR_HTTP_CONNECT", 28674),
    Macro("ESP_ERR_HTTP_WRITE_DATA", 28675),
    Macro("ESP_ERR_HTTP_FETCH_HEADER", 28676),
    Macro("ESP_ERR_HTTP_INVALID_TRANSPORT", 28677),
    Macro("ESP_ERR_HTTP_CONNECTING", 28678),
    Macro("ESP_ERR_HTTP_EAGAIN", 28679)
  ]

  /** Entries under the `components/esp-tls/esp_tls.h` heading (ErrorList.h:490-542). */
  const EspTlsBlock: seq<Macro> := [
    Macro("ESP_ERR_ESP_TLS_BASE", 32768),
    Macro("ESP_ERR_ESP_TLS_CANNOT_RESOLVE_HOSTNAME", 32769),
    Macro("ESP_ERR_ESP_TLS_CANNOT_CREATE_SOCKET", 32770),
    Macro("ESP_ERR_ESP_TLS_UNSUPPORTED_PROTOCOL_FAMILY", 32771),
    Macro("ESP_ERR_ESP_TLS_FAILED_CONNECT_TO_HOST", 32772),
    Macro("ESP_ERR_ESP_TLS_SOCKET_SETOPT_FAILED", 32773),
    Macro("ESP_ERR_MBEDTLS_CERT_PARTLY_OK", 32774),
    Macro("ESP_ERR_MBEDTLS_CTR_DRBG_SEED_FAILED", 32775),
    Macro("ESP_ERR_MBEDTLS_SSL_SET_HOSTNAME_FAILED", 32776),
    Macro("ESP_ERR_MBEDTLS_SSL_CONFIG_DEFAULTS_FAILED", 32777),
    Macro("ESP_ERR_MBEDTLS_SSL_CONF_ALPN_PROTOCOLS_FAILED", 32778),
    Macro("ESP_ERR_MBEDTLS_X509_CRT_PARSE_FAILED", 32779),
    Macro("ESP_ERR_MBEDTLS_SSL_CONF_OWN_CERT_FAILED", 32780),
    Macro("ESP_ERR_MBEDTLS_SSL_SETUP_FAILED", 32781),
    Macro("ESP_ERR_MBEDTLS_SSL_WRITE_FAILED", 32782),
    Macro("ESP_ERR_MBEDTLS_PK_PARSE_KEY_FAILED", 32783),
    Macro("ESP_ERR_MBEDTLS_SSL_HANDSHAKE_FAILED", 32784),
    Macro("ESP_ERR_MBEDTLS_SSL_CONF_PSK_FAILED", 32785)
  ]

  /** Entries under the `components/esp_https_ota/include/esp_https_ota.h` heading (ErrorList.h:546-549). */
  const HttpsOtaBlock: seq<Macro> := [
    Macro("ESP_ERR_HTTPS_OTA_BASE", 36864),
    Macro("ESP_ERR_HTTPS_OTA_IN_PROGRESS", 36865)
  ]

  /** Entries under the `components/lwip/include/apps/esp_ping.h` heading (ErrorList.h:553-559). */
  const PingBlock: seq<Macro> := [
    Macro("ESP_ERR_PING_BASE", 40960),
    Macro("ESP_ERR_PING_INVALID_PARAMS", 40961),
    Macro("ESP_ERR_PING_NO_MEM", 40962)
  ]

  /** Entries under the `components/esp_http_server/include/esp_http_server.h` heading (ErrorList.h:563-590). */
  const HttpServerBlock: seq<Macro> := [
    Macro("ESP_ERR_HTTPD_BASE", 45056),
    Macro("ESP_ERR_HTTPD_HANDLERS_FULL", 45057),
    Macro("ESP_ERR_HTTPD_HANDLER_EXISTS", 45058),
    Macro("ESP_ERR_HTTPD_INVALID_REQ", 45059),
    Macro("ESP_ERR_HTTPD_RESULT_TRUNC", 45060),
    Macro("ESP_ERR_HTTPD_RESP_HDR", 45061),
    Macro("ESP_ERR_HTTPD_RESP_SEND", 45062),
    Macro("ESP_ERR_HTTPD_ALLOC_MEM", 45063),
    Macro("ESP_ERR_HTTPD_TASK", 45064)
  ]

}
