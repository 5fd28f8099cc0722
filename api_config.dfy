/** The data-source settings page of frontend/app/admin/api-config/page.tsx.
    The page keeps `defaultConfigs`, a module-level array of objects, and its
    state array starts as that very array; the handlers copy the array but
    not its elements, so they write into the objects the defaults hold. The
    class `Config` below models those shared element objects. */
module ApiConfig {

  class Config {
    var source: string
    var enabled: bool
    var frequency: int
    var lastSync: string
    var status: string

    constructor (source: string, enabled: bool, frequency: int, lastSync: string, status: string)
      ensures this.source == source && this.enabled == enabled && this.frequency == frequency
      ensures this.lastSync == lastSync && this.status == status
    {
      this.source := source;
      this.enabled := enabled;
      this.frequency := frequency;
      this.lastSync := lastSync;
      this.status := status;
    }

    function Values(): ConfigValues
      reads this
    {
      ConfigValues(source, enabled, frequency, lastSync, status)
    }
  }

  /** The contents of one entry. */
  datatype ConfigValues = ConfigValues(source: string, enabled: bool, frequency: int, lastSync: string, status: string)

  const DefaultValues: seq<ConfigValues> := [
    ConfigValues("Binance", true, 5, "2024-12-11 14:32:15", "connected"),
    ConfigValues("CoinGecko", true, 10, "2024-12-11 14:31:42", "connected"),
    ConfigValues("Kraken", false, 15, "2024-12-10 18:20:00", "disconnected"),
    ConfigValues("Coinbase", true, 20, "2024-12-11 14:29:55", "connected")
  ]

  /** The objects of `defaultConfigs`, created once when the module loads. */
  method LoadDefaults() returns (defaults: seq<Config>)
    ensures |defaults| == |DefaultValues|
    ensures forall i :: 0 <= i < |defaults| ==> fresh(defaults[i]) && defaults[i].Values() == DefaultValues[i]
    ensures forall i, j :: 0 <= i < j < |defaults| ==> defaults[i] != defaults[j]
  {
    var a := new Config("Binance", true, 5, "2024-12-11 14:32:15", "connected");
    var b := new Config("CoinGecko", true, 10, "2024-12-11 14:31:42", "connected");
    var c := new Config("Kraken", false, 15, "2024-12-10 18:20:00", "disconnected");
    var d := new Config("Coinbase", true, 20, "2024-12-11 14:29:55", "connected");
    defaults := [a, b, c, d];
  }

  /** The page as written. */
  class Page {
    const defaultConfigs: seq<Config>
    var configs: seq<Config>
    var changes: bool

    constructor (defaults: seq<Config>)
      ensures defaultConfigs == defaults && configs == defaults && !changes
    {
      defaultConfigs := defaults;
      configs := defaults;
      changes := false;
    }

    /** `handleFrequencyChange`: writes into the element object itself. */
    method HandleFrequencyChange(index: nat, frequency: int)
      requires index < |configs|
      modifies this, configs[index]
      ensures configs == old(configs) && changes
      ensures configs[index].Values() == old(configs[index].Values()).(frequency := frequency)
    {
      var newConfigs := configs;
      newConfigs[index].frequency := frequency;
      configs := newConfigs;
      changes := true;
    }

    /** `handleToggleAPI`. */
    method HandleToggleApi(index: nat)
      requires index < |configs|
      modifies this, configs[index]
      ensures configs == old(configs) && changes
      ensures configs[index].Values() == old(configs[index].Values()).(enabled := !old(configs[index].enabled))
    {
      var newConfigs := configs;
      newConfigs[index].enabled := !newConfigs[index].enabled;
      configs := newConfigs;
      changes := true;
    }

    /** `handleSave`: only the flag; the configs are not sent anywhere. */
    method HandleSave()
      modifies this
      ensures !changes && configs == old(configs)
    {
      changes := false;
    }

    /** `handleReset`: the state array becomes the defaults array again. */
    method HandleReset()
      modifies this
      ensures configs == defaultConfigs && !changes
    {
      configs := defaultConfigs;
      changes := false;
    }

    /** The Save button is disabled while nothing changed. */
    predicate SaveEnabled()
      reads this
    {
      changes
    }
  }

  /** Two toggles restore `enabled`. */
  method ToggleTwice(page: Page, index: nat)
    requires index < |page.configs|
    modifies page, page.configs[index]
    ensures page.configs == old(page.configs) && page.changes
    ensures page.configs[index].Values() == old(page.configs[index].Values())
  {
    page.HandleToggleApi(index);
    page.HandleToggleApi(index);
  }

  /** A frequency edited before a reset survives it: on a fresh page, set
      Binance to 60 and press Reset; Binance still polls every 60. */
  method EditSurvivesReset() returns (after: int, saved: seq<ConfigValues>)
    ensures after == 60 && after != DefaultValues[0].frequency
    ensures saved != DefaultValues
  {
    var defaults := LoadDefaults();
    var page := new Page(defaults);
    page.HandleFrequencyChange(0, 60);
    page.HandleReset();
    after := page.configs[0].frequency;
    saved := [page.configs[0].Values(), page.configs[1].Values(), page.configs[2].Values(), page.configs[3].Values()];
    assert saved[0].frequency == 60;
  }

  /* ---------- the intended page, on values ---------- */

  /** An entry with a new frequency; the others untouched. */
  function WithFrequency(cs: seq<ConfigValues>, index: nat, frequency: int): (r: seq<ConfigValues>)
    requires index < |cs|
    ensures |r| == |cs| && r[index] == cs[index].(frequency := frequency)
    ensures forall i :: 0 <= i < |cs| && i != index ==> r[i] == cs[i]
  {
    cs[index := cs[index].(frequency := frequency)]
  }

  /** An entry with `enabled` flipped; the others untouched. */
  function WithToggled(cs: seq<ConfigValues>, index: nat): (r: seq<ConfigValues>)
    requires index < |cs|
    ensures |r| == |cs| && r[index] == cs[index].(enabled := !cs[index].enabled)
    ensures forall i :: 0 <= i < |cs| && i != index ==> r[i] == cs[i]
  {
    cs[index := cs[index].(enabled := !cs[index].enabled)]
  }

  lemma ToggledTwice(cs: seq<ConfigValues>, index: nat)
    requires index < |cs|
    ensures WithToggled(WithToggled(cs, index), index) == cs
  {
  }

  /** The page with each edit copying its entry, so that Reset restores the
      defaults. */
  class ValuePage {
    var configs: seq<ConfigValues>
    var changes: bool

    constructor ()
      ensures configs == DefaultValues && !changes
    {
      configs := DefaultValues;
      changes := false;
    }

    method HandleFrequencyChange(index: nat, frequency: int)
      requires index < |configs|
      modifies this
      ensures configs == WithFrequency(old(configs), index, frequency) && changes
    {
      configs := WithFrequency(configs, index, frequency);
      changes := true;
    }

    method HandleToggleApi(index: nat)
      requires index < |configs|
      modifies this
      ensures configs == WithToggled(old(configs), index) && changes
    {
      configs := WithToggled(configs, index);
      changes := true;
    }

    method HandleSave()
      modifies this
      ensures !changes && configs == old(configs)
    {
      changes := false;
    }

    method HandleReset()
      modifies this
      ensures configs == DefaultValues && !changes
    {
      configs := DefaultValues;
      changes := false;
    }
  }

  /** The same edit and reset as in `EditSurvivesReset`, on the intended page. */
  method ResetRestoresDefaults() returns (after: int, saved: seq<ConfigValues>)
    ensures after == DefaultValues[0].frequency
    ensures saved == DefaultValues
  {
    var page := new ValuePage();
    page.HandleFrequencyChange(0, 60);
    page.HandleReset();
    after := page.configs[0].frequency;
    saved := page.configs;
  }
}
