/**
 * The in-memory provider cache: every active provider row with a model
 * list contributes its provider (type, key and base URL from the first row
 * with that id) and its model configurations, filed by model id.
 */
module ProviderCache {
  import opened Wrappers

  /** A model configuration (`ModelConfig`), without its price fields. */
  datatype ModelConfig = ModelConfig(
    id: string,
    name: string,
    attachment: bool,
    reasoning: bool,
    toolCall: bool,
    contextLimit: int,
    outputLimit: int)

  /** An active provider row; `configs` is what its `model` JSON text decodes to, `None` when it does not decode. */
  datatype ProviderRow = ProviderRow(
    id: string,
    providerType: string,
    apiKey: string,
    baseUrl: string,
    model: string,
    configs: Option<seq<ModelConfig>>)

  /** `SimpleProviderInfo`. */
  datatype ProviderInfo = ProviderInfo(
    providerType: string,
    baseUrl: string,
    apiKey: string,
    models: map<string, ModelConfig>)

  type Providers = map<string, ProviderInfo>

  /** Files each configuration under its id; a later one with the same id replaces an earlier one. */
  function AddConfigs(models: map<string, ModelConfig>, cs: seq<ModelConfig>): (r: map<string, ModelConfig>)
    ensures r.Keys == models.Keys + (set c | c in cs :: c.id)
    ensures forall k :: k in models && (forall c :: c in cs ==> c.id != k) ==> r[k] == models[k]
  {
    if cs == [] then models
    else
      var init := cs[..|cs| - 1];
      var last := cs[|cs| - 1];
      assert cs == init + [last];
      AddConfigs(models, init)[last.id := last]
  }

  /** One row: skipped without a model list, otherwise its provider created if new and its models added. */
  function AddRow(ps: Providers, row: ProviderRow): Providers
    requires row.model != "" ==> row.configs.Some?
  {
    if row.model == "" then ps
    else
      var info := if row.id in ps then ps[row.id] else ProviderInfo(row.providerType, row.baseUrl, row.apiKey, map[]);
      ps[row.id := info.(models := AddConfigs(info.models, row.configs.value))]
  }

  /** Every row with a model list decodes. */
  predicate AllDecode(rows: seq<ProviderRow>) {
    forall i :: 0 <= i < |rows| ==> rows[i].model != "" ==> rows[i].configs.Some?
  }

  /** The cache built from scratch from the rows, in order. */
  function BuildProviders(rows: seq<ProviderRow>): Providers
    requires AllDecode(rows)
  {
    if rows == [] then map[] else AddRow(BuildProviders(rows[..|rows| - 1]), rows[|rows| - 1])
  }

  /** The ids of the rows that carry a model list. */
  function ListedIds(rows: seq<ProviderRow>): set<string> {
    set i | 0 <= i < |rows| && rows[i].model != "" :: rows[i].id
  }

  /** The first row with a model list for `id`, if any. */
  function FirstRow(rows: seq<ProviderRow>, id: string): Option<ProviderRow> {
    if rows == [] then None
    else if rows[0].id == id && rows[0].model != "" then Some(rows[0])
    else FirstRow(rows[1..], id)
  }

  /** The configuration the cache holds for model `m` of provider `id`: the last one listed. */
  function LastConfig(rows: seq<ProviderRow>, id: string, m: string): Option<ModelConfig>
    requires AllDecode(rows)
  {
    if rows == [] then None
    else
      var row := rows[|rows| - 1];
      var init := rows[..|rows| - 1];
      var inRow := if row.id == id && row.model != "" then LastIn(row.configs.value, m) else None;
      if inRow.Some? then inRow else LastConfig(init, id, m)
  }

  function LastIn(cs: seq<ModelConfig>, m: string): (r: Option<ModelConfig>)
    ensures r.Some? ==> r.value in cs && r.value.id == m
    ensures r.None? ==> forall c :: c in cs ==> c.id != m
  {
    if cs == [] then None
    else if cs[|cs| - 1].id == m then Some(cs[|cs| - 1])
    else
      var r := LastIn(cs[..|cs| - 1], m);
      assert forall c :: c in cs[..|cs| - 1] ==> c in cs;
      assert forall c :: c in cs ==> c in cs[..|cs| - 1] || c == cs[|cs| - 1];
      r
  }

  lemma {:induction false} AddConfigsLast(models: map<string, ModelConfig>, cs: seq<ModelConfig>, m: string)
    ensures LastIn(cs, m).Some? ==> m in AddConfigs(models, cs) && AddConfigs(models, cs)[m] == LastIn(cs, m).value
    ensures LastIn(cs, m).None? ==> (m in AddConfigs(models, cs) <==> m in models)
    ensures LastIn(cs, m).None? && m in models ==> AddConfigs(models, cs)[m] == models[m]
  {
    if cs != [] {
      AddConfigsLast(models, cs[..|cs| - 1], m);
    }
  }

  /** The providers cached are exactly those of the rows with a model list; rows without one leave no trace. */
  lemma {:induction false} BuildProvidersKeys(rows: seq<ProviderRow>)
    requires AllDecode(rows)
    ensures BuildProviders(rows).Keys == ListedIds(rows)
  {
    if rows != [] {
      var init := rows[..|rows| - 1];
      BuildProvidersKeys(init);
      assert ListedIds(rows) == ListedIds(init) + (if rows[|rows| - 1].model != "" then {rows[|rows| - 1].id} else {}) by {
        forall x | x in ListedIds(rows) ensures x in ListedIds(init) || (rows[|rows| - 1].model != "" && x == rows[|rows| - 1].id) {
          var i :| 0 <= i < |rows| && rows[i].model != "" && rows[i].id == x;
          if i < |rows| - 1 { assert init[i] == rows[i]; }
        }
        forall x | x in ListedIds(init) ensures x in ListedIds(rows) {
          var i :| 0 <= i < |init| && init[i].model != "" && init[i].id == x;
          assert rows[i] == init[i];
        }
      }
    }
  }

  lemma FirstRowSnoc(rows: seq<ProviderRow>, row: ProviderRow, id: string)
    ensures FirstRow(rows + [row], id) == if FirstRow(rows, id).Some? then FirstRow(rows, id)
      else if row.id == id && row.model != "" then Some(row) else None
    decreases |rows|
  {
    if rows != [] {
      assert (rows + [row])[1..] == rows[1..] + [row];
      FirstRowSnoc(rows[1..], row, id);
    }
  }

  /** The first row with a model list for a provider fixes its type, key and base URL; later rows only add models. */
  lemma {:induction false} FirstRowFixesProvider(rows: seq<ProviderRow>, id: string)
    requires AllDecode(rows)
    ensures id in BuildProviders(rows) <==> FirstRow(rows, id).Some?
    ensures id in BuildProviders(rows) ==>
      var first := FirstRow(rows, id).value;
      var info := BuildProviders(rows)[id];
      info.providerType == first.providerType && info.apiKey == first.apiKey && info.baseUrl == first.baseUrl
  {
    if rows != [] {
      var init := rows[..|rows| - 1];
      var row := rows[|rows| - 1];
      FirstRowFixesProvider(init, id);
      assert rows == init + [row];
      FirstRowSnoc(init, row, id);
    }
  }

  /** Each model is filed under its id, and the last row and configuration listing it wins. */
  lemma {:induction false} LastConfigWins(rows: seq<ProviderRow>, id: string, m: string)
    requires AllDecode(rows)
    ensures LastConfig(rows, id, m).Some? <==> id in BuildProviders(rows) && m in BuildProviders(rows)[id].models
    ensures LastConfig(rows, id, m).Some? ==> BuildProviders(rows)[id].models[m] == LastConfig(rows, id, m).value
  {
    if rows != [] {
      var init := rows[..|rows| - 1];
      var row := rows[|rows| - 1];
      LastConfigWins(init, id, m);
      if row.id == id && row.model != "" {
        var ps := BuildProviders(init);
        var info := if row.id in ps then ps[row.id] else ProviderInfo(row.providerType, row.baseUrl, row.apiKey, map[]);
        AddConfigsLast(info.models, row.configs.value, m);
      }
    }
  }

  /** The inner loop: each configuration filed under its id, in order. */
  method FileConfigs(models: map<string, ModelConfig>, cs: seq<ModelConfig>) returns (r: map<string, ModelConfig>)
    ensures r == AddConfigs(models, cs)
  {
    r := models;
    var j := 0;
    while j < |cs|
      invariant 0 <= j <= |cs|
      invariant r == AddConfigs(models, cs[..j])
    {
      FileOneMore(models, cs, j);
      r := r[cs[j].id := cs[j]];
      j := j + 1;
    }
    assert cs[..|cs|] == cs;
  }

  lemma FileOneMore(models: map<string, ModelConfig>, cs: seq<ModelConfig>, j: nat)
    requires j < |cs|
    ensures AddConfigs(models, cs[..j + 1]) == AddConfigs(models, cs[..j])[cs[j].id := cs[j]]
  {
    var pre := cs[..j + 1];
    assert pre[..|pre| - 1] == cs[..j] && pre[|pre| - 1] == cs[j];
  }

  /** The process-wide cache (`ProviderMap`). */
  class Cache {
    var providers: Providers

    constructor ()
      ensures providers == map[]
    {
      providers := map[];
    }

    /**
     * `UpdateProviderCache`: a fresh map filled row by row, model by model.
     * A model list that does not decode stops the process (`fatal`).
     */
    method Update(rows: seq<ProviderRow>) returns (fatal: bool)
      modifies this
      ensures fatal <==> !AllDecode(rows)
      ensures !fatal ==> providers == BuildProviders(rows)
    {
      var ps: Providers := map[];
      var i := 0;
      while i < |rows|
        invariant 0 <= i <= |rows|
        invariant AllDecode(rows[..i])
        invariant ps == BuildProviders(rows[..i])
      {
        var row := rows[i];
        assert rows[..i + 1][..i] == rows[..i];
        if row.model != "" {
          var info := if row.id in ps then ps[row.id] else ProviderInfo(row.providerType, row.baseUrl, row.apiKey, map[]);
          if row.configs.None? {
            providers := ps[row.id := info];
            return true;
          }
          var models := FileConfigs(info.models, row.configs.value);
          ps := ps[row.id := info.(models := models)];
        }
        assert AllDecode(rows[..i + 1]) by {
          assert rows[..i + 1] == rows[..i] + [row];
        }
        i := i + 1;
      }
      assert rows[..|rows|] == rows;
      providers := ps;
      return false;
    }
  }
}
