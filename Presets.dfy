/** The preset catalog `PRESETS` and the preset menu built from it. */
module Presets {
  import opened JsNumber
  import opened Conversions
  import opened Resources

  datatype Preset = Preset(name: string, reserved: Resource, limit: Resource)

  /** One entry of the preset menu: the label shown and the key returned. */
  datatype Choice = Choice(name: string, value: string)

  /** The catalog's keys in the order the object literal declares them. */
  const PresetKeys: seq<string> := ["react-qa", "react-prod", "laravel-qa", "laravel-prod"]

  /** `PRESETS`, an immutable table from key to preset. The source writes each memory
      value as `n * MEMORY_UNITS.MB` (or `.GB`), which is `ToBytes(n, MB)`. */
  const Catalog: map<string, Preset> := map[
    "react-qa" := Preset("React QA (128MB R / 256MB L, 0.1 CPU R / 0.25 CPU L)",
      Resource(Finite(0.1), ToBytes(128.0, MB)), Resource(Finite(0.25), ToBytes(256.0, MB))),
    "react-prod" := Preset("React Prod (256MB R / 512MB L, 0.25 CPU R / 0.5 CPU L)",
      Resource(Finite(0.25), ToBytes(256.0, MB)), Resource(Finite(0.5), ToBytes(512.0, MB))),
    "laravel-qa" := Preset("Laravel + Swoole QA (512MB R / 1GB L, 0.5 CPU R / 1 CPU L)",
      Resource(Finite(0.5), ToBytes(512.0, MB)), Resource(Finite(1.0), ToBytes(1.0, GB))),
    "laravel-prod" := Preset("Laravel + Swoole Prod (1GB R / 2GB L, 1 CPU R / 2 CPU L)",
      Resource(Finite(1.0), ToBytes(1.0, GB)), Resource(Finite(2.0), ToBytes(2.0, GB)))
  ]

  /** The preset menu, `Object.entries(PRESETS).map(...)`: one choice per catalog entry,
      in declaration order, labelled with the preset's name and carrying its key. */
  function MenuChoices(): (cs: seq<Choice>)
    ensures |cs| == |PresetKeys| == |Catalog|
    ensures forall i :: 0 <= i < |cs| ==>
      cs[i].value == PresetKeys[i] && cs[i].value in Catalog && cs[i].name == Catalog[cs[i].value].name
    ensures forall k :: k in Catalog <==> exists i :: 0 <= i < |cs| && cs[i].value == k
    ensures forall i, j :: 0 <= i < j < |cs| ==> cs[i].value != cs[j].value
  {
    assert Catalog.Keys == {PresetKeys[0], PresetKeys[1], PresetKeys[2], PresetKeys[3]};
    seq(|PresetKeys|, i requires 0 <= i < |PresetKeys| =>
      Choice(Catalog[PresetKeys[i]].name, PresetKeys[i]))
  }

  /** Every preset holds two valid resources with whole byte counts, and its limit is
      at least its reservation in both CPU and memory. */
  lemma PresetsWellFormed(key: string)
    requires key in Catalog
    ensures Valid(Catalog[key].reserved) && Valid(Catalog[key].limit)
    ensures AtMost(Catalog[key].reserved.cpu, Catalog[key].limit.cpu)
    ensures Catalog[key].reserved.memoryBytes <= Catalog[key].limit.memoryBytes
    ensures Catalog[key].reserved.memoryBytes == Catalog[key].reserved.memoryBytes.Floor as real
    ensures Catalog[key].limit.memoryBytes == Catalog[key].limit.memoryBytes.Floor as real
  {
    UnitSizes();
  }

  /** The byte counts of the catalog, as its labels describe them. */
  lemma PresetBytes()
    ensures Catalog["react-qa"].reserved.memoryBytes == 134_217_728.0
    ensures Catalog["react-qa"].limit.memoryBytes == 268_435_456.0
    ensures Catalog["react-prod"].limit.memoryBytes == 536_870_912.0
    ensures Catalog["laravel-qa"].limit.memoryBytes == 1_073_741_824.0
    ensures Catalog["laravel-prod"].limit.memoryBytes == 2_147_483_648.0
  {
    UnitSizes();
  }
}
