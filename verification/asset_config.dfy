/** The asset registry of `src/lib/stellar/config.ts`: the two supported assets,
    the network configuration and the case-insensitive lookup by code. */
module AssetConfig {
  import opened Wrappers
  import opened Strings

  datatype NetworkConfig = NetworkConfig(rpcUrl: string, networkPassphrase: string)

  const NETWORK: NetworkConfig :=
    NetworkConfig("https://horizon.stellar.org", "Public Global Stellar Network ; September 2015")

  /** A ledger asset: the built-in native asset, or a (code, issuer) credit. */
  datatype Asset = NativeAsset | CreditAsset(code: string, issuer: string)

  datatype AssetDescriptor = AssetDescriptor(code: string, decimals: nat, issuer: Option<string>) {
    /** The descriptor's `asset` field: native when there is no issuer. */
    function LedgerAsset(): Asset {
      match issuer
      case None => NativeAsset
      case Some(i) => CreditAsset(code, i)
    }
  }

  const USDC_ISSUER: string := "GA5ZSEJYB37JRC5AVCIA5MOP4RHTM335X2KGX3IHOJAPP5RE34K4KZVN"

  const NATIVE_ASSET: AssetDescriptor := AssetDescriptor("XLM", 7, None)
  const USDC_ASSET: AssetDescriptor := AssetDescriptor("USDC", 7, Some(USDC_ISSUER))

  lemma UpperOfKnownCodes()
    ensures ToUpper("xlm") == "XLM" && ToUpper("usdc") == "USDC"
    ensures ToUpper("XLM") == "XLM" && ToUpper("USDC") == "USDC"
  {
    assert ToUpper("m") == "M";
    assert ToUpper("c") == "C";
    assert ToUpper("M") == "M";
    assert ToUpper("C") == "C";
  }

  /** Upper-casing identifies exactly the strings that differ only in case. */
  lemma UpperEqualIffSameIgnoringCase(a: string, b: string)
    ensures ToUpper(a) == ToUpper(b) <==> SameIgnoringCase(a, b)
  {
    if ToUpper(a) == ToUpper(b) {
      assert forall i :: 0 <= i < |a| ==> ToUpper(a)[i] == ToUpper(b)[i];
    }
  }

  /** `StellarConfig.getAssetByCode`: XLM and USDC in any ASCII casing, nothing else. */
  function GetAssetByCode(code: string): (r: Option<AssetDescriptor>)
    ensures r == Some(NATIVE_ASSET) <==> SameIgnoringCase(code, "xlm")
    ensures r == Some(USDC_ASSET) <==> SameIgnoringCase(code, "usdc")
    ensures r.None? <==> !SameIgnoringCase(code, "xlm") && !SameIgnoringCase(code, "usdc")
  {
    UpperOfKnownCodes();
    UpperEqualIffSameIgnoringCase(code, "xlm");
    UpperEqualIffSameIgnoringCase(code, "usdc");
    var upper := ToUpper(code);
    if upper == "XLM" then Some(NATIVE_ASSET)
    else if upper == "USDC" then Some(USDC_ASSET)
    else None
  }

  /** `StellarConfig.getAllAssets`: the native asset first, then USDC. */
  function GetAllAssets(): (r: seq<AssetDescriptor>)
    ensures |r| == 2 && r[0] == NATIVE_ASSET && r[1] == USDC_ASSET
  {
    [NATIVE_ASSET, USDC_ASSET]
  }

  /** The registry's invariant: exactly one native descriptor (the first, with no
      issuer), every other one with a non-empty issuer, all with 7 decimals, and
      distinct codes. */
  lemma RegistryWellFormed()
    ensures GetAllAssets()[0].issuer.None? && GetAllAssets()[0].LedgerAsset() == NativeAsset
    ensures forall i :: 1 <= i < |GetAllAssets()| ==>
      Present(GetAllAssets()[i].issuer)
      && GetAllAssets()[i].LedgerAsset() == CreditAsset(GetAllAssets()[i].code, GetAllAssets()[i].issuer.value)
    ensures forall i :: 0 <= i < |GetAllAssets()| ==> GetAllAssets()[i].decimals == 7
    ensures forall i, j :: 0 <= i < j < |GetAllAssets()| ==> GetAllAssets()[i].code != GetAllAssets()[j].code
  {
  }

  /** Looking up any registered descriptor's code returns that descriptor. */
  lemma RegistryRoundTrip(i: nat)
    requires i < |GetAllAssets()|
    ensures GetAssetByCode(GetAllAssets()[i].code) == Some(GetAllAssets()[i])
  {
    UpperOfKnownCodes();
  }

  /** The lookup ignores case: two codes that differ only in case resolve alike. */
  lemma LookupIgnoresCase(a: string, b: string)
    requires SameIgnoringCase(a, b)
    ensures GetAssetByCode(a) == GetAssetByCode(b)
  {
    UpperEqualIffSameIgnoringCase(a, b);
    UpperEqualIffSameIgnoringCase(a, "xlm");
    UpperEqualIffSameIgnoringCase(b, "xlm");
    UpperEqualIffSameIgnoringCase(a, "usdc");
    UpperEqualIffSameIgnoringCase(b, "usdc");
  }
}
