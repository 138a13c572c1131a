/**
 * The cable records every transformer produces and the JSON values the
 * library files hold.
 */
module Records {
  import opened Wrappers

  /** A JSON value as `json.load` returns it. */
  datatype Json =
    | JNull
    | JBool(b: bool)
    | JInt(i: int)
    | JReal(r: real)
    | JStr(s: string)
    | JList(items: seq<Json>)
    | JObj(fields: map<string, Json>)

  /** One conductor of a cable; `extras` holds keys beyond the six standard ones. */
  datatype Core = Core(
    coreId: string,
    conductorDiameter: real,
    insulationThickness: real,
    insulationColor: string,
    gauge: string,
    conductorMaterial: string,
    extras: map<string, Json>)

  /**
   * One cable record. The named fields are the keys every producer writes;
   * `description` is absent from generated hookup wire; `extras` holds the
   * producer-specific keys (weights, material descriptions, filler).
   */
  datatype Cable = Cable(
    cableId: string,
    partNumber: string,
    manufacturer: string,
    name: string,
    cableType: int,
    cores: seq<Core>,
    jacketThickness: real,
    jacketColor: string,
    hasShield: bool,
    shieldType: int,
    shieldThickness: real,
    shieldCoverage: int,
    hasDrainWire: bool,
    drainWireDiameter: real,
    isFiller: bool,
    specifiedOuterDiameter: real,
    description: Option<string>,
    extras: map<string, Json>)

  /** The six standard core keys. */
  const CoreKeys: set<string> :=
    {"CoreId", "ConductorDiameter", "InsulationThickness", "InsulationColor", "Gauge", "ConductorMaterial"}

  /** The seventeen standard cable keys. */
  const CableKeys: set<string> :=
    {"CableId", "PartNumber", "Manufacturer", "Name", "Type", "Cores",
     "JacketThickness", "JacketColor", "HasShield", "ShieldType",
     "ShieldThickness", "ShieldCoverage", "HasDrainWire", "DrainWireDiameter",
     "IsFiller", "SpecifiedOuterDiameter", "Description"}

  /** The JSON object a core is written as. */
  function CoreToJson(c: Core): (m: map<string, Json>)
    ensures m.Keys == c.extras.Keys + CoreKeys
    ensures m["CoreId"] == JStr(c.coreId) && m["Gauge"] == JStr(c.gauge)
  {
    c.extras + map[
      "CoreId" := JStr(c.coreId),
      "ConductorDiameter" := JReal(c.conductorDiameter),
      "InsulationThickness" := JReal(c.insulationThickness),
      "InsulationColor" := JStr(c.insulationColor),
      "Gauge" := JStr(c.gauge),
      "ConductorMaterial" := JStr(c.conductorMaterial)]
  }

  function CoresToJson(cores: seq<Core>): (js: seq<Json>)
    ensures |js| == |cores|
    ensures forall i :: 0 <= i < |cores| ==> js[i] == JObj(CoreToJson(cores[i]))
    ensures forall i :: 0 <= i < |cores| ==>
      js[i].JObj? && js[i].fields.Keys == cores[i].extras.Keys + CoreKeys
      && js[i].fields["CoreId"] == JStr(cores[i].coreId)
  {
    seq(|cores|, i requires 0 <= i < |cores| => JObj(CoreToJson(cores[i])))
  }

  /** The standard part of a cable record, without its extras and without "Description". */
  function StandardFields(c: Cable): map<string, Json> {
    map[
      "CableId" := JStr(c.cableId),
      "PartNumber" := JStr(c.partNumber),
      "Manufacturer" := JStr(c.manufacturer),
      "Name" := JStr(c.name),
      "Type" := JInt(c.cableType),
      "Cores" := JList(CoresToJson(c.cores)),
      "JacketThickness" := JReal(c.jacketThickness),
      "JacketColor" := JStr(c.jacketColor),
      "HasShield" := JBool(c.hasShield),
      "ShieldType" := JInt(c.shieldType),
      "ShieldThickness" := JReal(c.shieldThickness),
      "ShieldCoverage" := JInt(c.shieldCoverage),
      "HasDrainWire" := JBool(c.hasDrainWire),
      "DrainWireDiameter" := JReal(c.drainWireDiameter),
      "IsFiller" := JBool(c.isFiller),
      "SpecifiedOuterDiameter" := JReal(c.specifiedOuterDiameter)]
  }

  /** The JSON object a cable record is written as. */
  function CableToJson(c: Cable): (m: map<string, Json>)
    ensures "CableId" in m && m["CableId"] == JStr(c.cableId)
    ensures "Cores" in m && m["Cores"] == JList(CoresToJson(c.cores))
    ensures "Description" in m <==> c.description.Some?
  {
    var fixed := StandardFields(c);
    var withDescription := match c.description
      case Some(d) => fixed["Description" := JStr(d)]
      case None => fixed;
    (c.extras - {"Description"}) + withDescription
  }
}
