/** mapToPricingConfiguration: every pricing_config record is stored in a
    key → value map, later records overwriting earlier ones, and the map
    is read with a default for every absent key. */
module PricingConfigService {
  import opened Types

  /** One pricing_config row. */
  datatype PricingConfigRecord = PricingConfigRecord(configKey: string, configValue: real)

  /** The map after the records have been applied in order. */
  function Collect(records: seq<PricingConfigRecord>): map<string, real> {
    if |records| == 0 then map[]
    else Collect(records[..|records| - 1])[records[|records| - 1].configKey := records[|records| - 1].configValue]
  }

  /** configMap.get(key) ?? fallback: only an absent key falls back. */
  function GetOr(m: map<string, real>, key: string, fallback: real): real {
    if key in m then m[key] else fallback
  }

  const DefaultPricingConfiguration: PricingConfiguration := PricingConfiguration(8000.0, 0.0, 30.0)

  function FromConfigMap(m: map<string, real>): PricingConfiguration {
    PricingConfiguration(
      GetOr(m, "extra_crew_flat_fee", 8000.0),
      GetOr(m, "tax_percentage", 0.0),
      GetOr(m, "advance_percentage", 30.0))
  }

  /** The forEach loop over the records, then the defaulted reads. */
  method MapToPricingConfiguration(records: seq<PricingConfigRecord>) returns (conf: PricingConfiguration)
    ensures conf == FromConfigMap(Collect(records))
  {
    var configMap: map<string, real> := map[];
    var i := 0;
    while i < |records|
      invariant 0 <= i <= |records|
      invariant configMap == Collect(records[..i])
    {
      configMap := configMap[records[i].configKey := records[i].configValue];
      assert records[..i + 1][..i] == records[..i];
      i := i + 1;
    }
    assert records[..|records|] == records;
    conf := FromConfigMap(configMap);
  }
}

/** What the pricing configuration fold promises, and what it means for
    the engine. */
module PricingConfigProperties {
  import opened Types
  import opened Money
  import opened PricingService
  import opened PricingProperties
  import opened Store
  import opened StoreProperties
  import opened PricingConfigService

  /** A key is in the map exactly when some record carries it, and then its
      value is that of the last such record. */
  lemma {:induction false} LastRecordWins(records: seq<PricingConfigRecord>, key: string)
    ensures key in Collect(records) <==> exists j :: 0 <= j < |records| && records[j].configKey == key
    ensures forall j :: 0 <= j < |records| ==>
      (records[j].configKey == key && forall k :: j < k < |records| ==> records[k].configKey != key)
      ==> key in Collect(records) && Collect(records)[key] == records[j].configValue
  {
    if |records| > 0 {
      var init := records[..|records| - 1];
      LastRecordWins(init, key);
      assert forall j :: 0 <= j < |init| ==> init[j] == records[j];
    }
  }

  /** A stored value is kept even when it is 0: an explicit tax or advance
      of 0 is not replaced by the default. */
  lemma StoredZeroKept(records: seq<PricingConfigRecord>)
    ensures FromConfigMap(Collect(records + [PricingConfigRecord("advance_percentage", 0.0)])).advancePercentage == 0.0
    ensures FromConfigMap(Collect(records + [PricingConfigRecord("extra_crew_flat_fee", 0.0)])).extraCrewFlatFee == 0.0
  {
  }

  /** An empty record list gives exactly the defaults. */
  lemma EmptyGivesDefaults()
    ensures FromConfigMap(Collect([])) == DefaultPricingConfiguration
  {
  }

  /** A record for any other key never affects the result. */
  lemma OtherKeysIrrelevant(records: seq<PricingConfigRecord>, r: PricingConfigRecord)
    requires r.configKey != "extra_crew_flat_fee" && r.configKey != "tax_percentage" && r.configKey != "advance_percentage"
    ensures FromConfigMap(Collect(records + [r])) == FromConfigMap(Collect(records))
  {
    assert (records + [r])[..|records|] == records;
  }

  /** With no pricing records the engine charges no tax and takes the same
      30 % advance the draft hard-codes. */
  lemma DefaultsInEngine(
    main: seq<SelectedFunction>, additional: seq<SelectedFunction>, album: AlbumConfig, slugs: seq<string>,
    defs: seq<EventFunction>, albumConf: AlbumConfiguration, options: seq<VideoAddonOption>)
    ensures var r := CalculatePricing(main, additional, album, slugs, defs, albumConf,
                                      FromConfigMap(Collect([])), options);
      r.tax == 0 && r.total == r.subtotal && r.advance == ThirtyPercentAdvance(r.total)
  {
    var cfg := FromConfigMap(Collect([]));
    ZeroTaxTotalIsSubtotal(main, additional, album, slugs, defs, albumConf, cfg, options);
    var r := CalculatePricing(main, additional, album, slugs, defs, albumConf, cfg, options);
    ThirtyPercentIsEngineDefault(r.total);
  }
}
