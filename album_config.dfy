/** mapToAlbumConfiguration: the album_config records folded into a
    key → value map, then read with a default for every absent key. */
module AlbumConfigService {
  import opened Types
  import opened Seqs

  /** One album_config row; a null config_value is None. */
  datatype AlbumConfigRecord = AlbumConfigRecord(configKey: string, configValue: Option<real>)

  /** The map after the records have been applied in order: a record with
      a value sets its key, a null record is skipped. */
  function Collect(records: seq<AlbumConfigRecord>): map<string, real> {
    if |records| == 0 then map[]
    else
      var m := Collect(records[..|records| - 1]);
      var r := records[|records| - 1];
      match r.configValue
      case None => m
      case Some(v) => m[r.configKey := v]
  }

  /** configMap.get(key) ?? fallback. */
  function GetOr(m: map<string, real>, key: string, fallback: real): real {
    if key in m then m[key] else fallback
  }

  const DefaultAlbumConfiguration: AlbumConfiguration := AlbumConfiguration(60.0, 8000.0, 500.0, 1.8, 10.0)

  /** The returned object, read from the map. */
  function FromConfigMap(m: map<string, real>): AlbumConfiguration {
    AlbumConfiguration(
      GetOr(m, "base_pages", 60.0),
      GetOr(m, "base_price_single", 8000.0),
      GetOr(m, "per_10_pages_cost", 500.0),
      GetOr(m, "double_album_multiplier", 1.8),
      GetOr(m, "pages_increment", 10.0))
  }

  /** The forEach loop over the records, then the defaulted reads. */
  method MapToAlbumConfiguration(records: seq<AlbumConfigRecord>) returns (conf: AlbumConfiguration)
    ensures conf == FromConfigMap(Collect(records))
  {
    var configMap: map<string, real> := map[];
    var i := 0;
    while i < |records|
      invariant 0 <= i <= |records|
      invariant configMap == Collect(records[..i])
    {
      var record := records[i];
      if record.configValue.Some? {
        configMap := configMap[record.configKey := record.configValue.value];
      }
      assert records[..i + 1][..i] == records[..i];
      i := i + 1;
    }
    assert records[..|records|] == records;
    conf := FromConfigMap(configMap);
  }
}

/** What the album configuration fold promises. */
module AlbumConfigProperties {
  import opened Types
  import opened Seqs
  import opened AlbumConfigService

  /** A key is in the map exactly when some record for it has a value. */
  lemma {:induction false} CollectKeys(records: seq<AlbumConfigRecord>, key: string)
    ensures key in Collect(records) <==>
      exists j :: 0 <= j < |records| && records[j].configKey == key && records[j].configValue.Some?
  {
    if |records| > 0 {
      var init := records[..|records| - 1];
      CollectKeys(init, key);
      assert forall j :: 0 <= j < |init| ==> init[j] == records[j];
    }
  }

  /** A key's value is the value of its last record that has one: later
      null records do not erase it. */
  lemma {:induction false} LastNonNullWins(records: seq<AlbumConfigRecord>, key: string, j: nat)
    requires j < |records| && records[j].configKey == key && records[j].configValue.Some?
    requires forall k :: j < k < |records| && records[k].configKey == key ==> records[k].configValue.None?
    ensures key in Collect(records) && Collect(records)[key] == records[j].configValue.value
  {
    var init := records[..|records| - 1];
    if j < |records| - 1 {
      assert forall k :: j < k < |init| ==> init[k] == records[k];
      LastNonNullWins(init, key, j);
    } else {
      assert init == records[..j];
    }
  }

  /** Null records are ignored: dropping them changes nothing. */
  lemma NullRecordIgnored(records: seq<AlbumConfigRecord>, key: string)
    ensures Collect(records + [AlbumConfigRecord(key, None)]) == Collect(records)
  {
    assert (records + [AlbumConfigRecord(key, None)])[..|records|] == records;
  }

  /** No records, or only null ones, give exactly the defaults. */
  lemma NoValuesGiveDefaults(records: seq<AlbumConfigRecord>)
    requires forall j :: 0 <= j < |records| ==> records[j].configValue.None?
    ensures FromConfigMap(Collect(records)) == DefaultAlbumConfiguration
  {
    CollectKeys(records, "base_pages");
    CollectKeys(records, "base_price_single");
    CollectKeys(records, "per_10_pages_cost");
    CollectKeys(records, "double_album_multiplier");
    CollectKeys(records, "pages_increment");
  }

  /** A record for a key other than the five named ones never affects the result. */
  lemma OtherKeysIrrelevant(records: seq<AlbumConfigRecord>, r: AlbumConfigRecord)
    requires r.configKey !in {"base_pages", "base_price_single", "per_10_pages_cost",
                              "double_album_multiplier", "pages_increment"}
    ensures FromConfigMap(Collect(records + [r])) == FromConfigMap(Collect(records))
  {
    assert (records + [r])[..|records|] == records;
  }

  /** A key with no non-null record reads as its fallback; a key whose
      last non-null record holds a value, even 0, reads as that value. */
  lemma ReadWithFallback(records: seq<AlbumConfigRecord>, key: string, fallback: real)
    ensures (forall j :: 0 <= j < |records| ==> records[j].configKey != key || records[j].configValue.None?)
      ==> GetOr(Collect(records), key, fallback) == fallback
    ensures forall j :: 0 <= j < |records| ==>
      (records[j].configKey == key && records[j].configValue.Some? &&
       (forall k :: j < k < |records| && records[k].configKey == key ==> records[k].configValue.None?))
      ==> GetOr(Collect(records), key, fallback) == records[j].configValue.value
  {
    CollectKeys(records, key);
    forall j | 0 <= j < |records| && records[j].configKey == key && records[j].configValue.Some? &&
      (forall k :: j < k < |records| && records[k].configKey == key ==> records[k].configValue.None?)
      ensures GetOr(Collect(records), key, fallback) == records[j].configValue.value
    {
      LastNonNullWins(records, key, j);
    }
  }

  /** The fold on a concrete table: the last of two
      base_pages rows wins, a later null row is skipped. */
  lemma CollectExample()
    ensures FromConfigMap(Collect([
      AlbumConfigRecord("base_pages", Some(50.0)),
      AlbumConfigRecord("base_pages", Some(40.0)),
      AlbumConfigRecord("base_pages", None),
      AlbumConfigRecord("per_10_pages_cost", Some(0.0))]))
      == AlbumConfiguration(40.0, 8000.0, 0.0, 1.8, 10.0)
  {
    var rs := [
      AlbumConfigRecord("base_pages", Some(50.0)),
      AlbumConfigRecord("base_pages", Some(40.0)),
      AlbumConfigRecord("base_pages", None),
      AlbumConfigRecord("per_10_pages_cost", Some(0.0))];
    assert rs[..3][..2] == rs[..2] && rs[..2][..1] == rs[..1] && rs[..1][..0] == [];
    assert Collect(rs[..1]) == map["base_pages" := 50.0];
    assert Collect(rs[..2]) == map["base_pages" := 40.0];
    assert Collect(rs[..3]) == map["base_pages" := 40.0];
    assert Collect(rs) == map["base_pages" := 40.0, "per_10_pages_cost" := 0.0];
  }
}
