/**
 * The tolerant receive-side parsers of the firmware variant in fw_screen/main/data.c:
 * every field is written on its own, when it is present with the expected
 * type, and every other field keeps its value. Its header is not part of
 * this model, so timestamps keep the double the code assigns and units are
 * kept as whole C strings.
 */
module TolerantData {
  import opened Wrappers
  import opened CTypes
  import opened CJson
  import opened Schema

  // ---------------------------------------------------------------------------
  // Anemometer
  // ---------------------------------------------------------------------------

  /** A snapshot of this variant's AnemometerData struct. */
  datatype AnemometerData = AnemometerData(
    timestamp: Float64,
    xVout: Float64, yVout: Float64, zVout: Float64,
    autocalibrazioneAsseX: bool, autocalibrazioneAsseY: bool, autocalibrazioneAsseZ: bool,
    autocalibrazioneMisuraX: bool, autocalibrazioneMisuraY: bool, autocalibrazioneMisuraZ: bool,
    tempSonicaX: Float64, tempSonicaY: Float64, tempSonicaZ: Float64)

  /** The field of `d` that entry i of AnemometerSchema describes. */
  function AnemometerField(d: AnemometerData, i: nat): FieldValue
    requires i < |AnemometerSchema|
  {
    match i
    case 0 => NumberValue(d.timestamp)
    case 1 => NumberValue(d.xVout)
    case 2 => NumberValue(d.yVout)
    case 3 => NumberValue(d.zVout)
    case 4 => BoolValue(d.autocalibrazioneAsseX)
    case 5 => BoolValue(d.autocalibrazioneAsseY)
    case 6 => BoolValue(d.autocalibrazioneAsseZ)
    case 7 => BoolValue(d.autocalibrazioneMisuraX)
    case 8 => BoolValue(d.autocalibrazioneMisuraY)
    case 9 => BoolValue(d.autocalibrazioneMisuraZ)
    case 10 => NumberValue(d.tempSonicaX)
    case 11 => NumberValue(d.tempSonicaY)
    case _ => NumberValue(d.tempSonicaZ)
  }

  // The keys of an "anm" message in this variant.
  const KeyTimestamp := "timestamp"
  const KeyXVout := "x_vout"
  const KeyYVout := "y_vout"
  const KeyZVout := "z_vout"
  const KeyAutocalibrazioneAsseX := "autocalibrazione_asse_x"
  const KeyAutocalibrazioneAsseY := "autocalibrazione_asse_y"
  const KeyAutocalibrazioneAsseZ := "autocalibrazione_asse_z"
  const KeyAutocalibrazioneMisuraX := "autocalibrazione_misura_x"
  const KeyAutocalibrazioneMisuraY := "autocalibrazione_misura_y"
  const KeyAutocalibrazioneMisuraZ := "autocalibrazione_misura_z"
  const KeyTempSonicaX := "temp_sonica_x"
  const KeyTempSonicaY := "temp_sonica_y"
  const KeyTempSonicaZ := "temp_sonica_z"

  /** The thirteen fields of an "anm" message, in the order the parser visits them. */
  const AnemometerSchema: seq<Field> := [
    Field([KeyTimestamp], NumberKind),
    Field([KeyXVout], NumberKind),
    Field([KeyYVout], NumberKind),
    Field([KeyZVout], NumberKind),
    Field([KeyAutocalibrazioneAsseX], BoolKind),
    Field([KeyAutocalibrazioneAsseY], BoolKind),
    Field([KeyAutocalibrazioneAsseZ], BoolKind),
    Field([KeyAutocalibrazioneMisuraX], BoolKind),
    Field([KeyAutocalibrazioneMisuraY], BoolKind),
    Field([KeyAutocalibrazioneMisuraZ], BoolKind),
    Field([KeyTempSonicaX], NumberKind),
    Field([KeyTempSonicaY], NumberKind),
    Field([KeyTempSonicaZ], NumberKind)
  ]

  /** The entries of the anemometer table, one by one. */
  lemma AnemometerEntries()
    ensures AnemometerSchema[0] == Field([KeyTimestamp], NumberKind)
    ensures AnemometerSchema[1] == Field([KeyXVout], NumberKind)
    ensures AnemometerSchema[2] == Field([KeyYVout], NumberKind)
    ensures AnemometerSchema[3] == Field([KeyZVout], NumberKind)
    ensures AnemometerSchema[4] == Field([KeyAutocalibrazioneAsseX], BoolKind)
    ensures AnemometerSchema[5] == Field([KeyAutocalibrazioneAsseY], BoolKind)
    ensures AnemometerSchema[6] == Field([KeyAutocalibrazioneAsseZ], BoolKind)
    ensures AnemometerSchema[7] == Field([KeyAutocalibrazioneMisuraX], BoolKind)
    ensures AnemometerSchema[8] == Field([KeyAutocalibrazioneMisuraY], BoolKind)
    ensures AnemometerSchema[9] == Field([KeyAutocalibrazioneMisuraZ], BoolKind)
    ensures AnemometerSchema[10] == Field([KeyTempSonicaX], NumberKind)
    ensures AnemometerSchema[11] == Field([KeyTempSonicaY], NumberKind)
    ensures AnemometerSchema[12] == Field([KeyTempSonicaZ], NumberKind)
  {
  }

  /**
   * The record parse_anemometer_data leaves behind when it held `d`: each
   * field takes the message's value when that is present with its type.
   */
  function ApplyAnemometer(d: AnemometerData, root: Json): AnemometerData {
    var timestamp := NumberMember(root, KeyTimestamp);
    var xVout := NumberMember(root, KeyXVout);
    var yVout := NumberMember(root, KeyYVout);
    var zVout := NumberMember(root, KeyZVout);
    var autocalibrazioneAsseX := BoolMember(root, KeyAutocalibrazioneAsseX);
    var autocalibrazioneAsseY := BoolMember(root, KeyAutocalibrazioneAsseY);
    var autocalibrazioneAsseZ := BoolMember(root, KeyAutocalibrazioneAsseZ);
    var autocalibrazioneMisuraX := BoolMember(root, KeyAutocalibrazioneMisuraX);
    var autocalibrazioneMisuraY := BoolMember(root, KeyAutocalibrazioneMisuraY);
    var autocalibrazioneMisuraZ := BoolMember(root, KeyAutocalibrazioneMisuraZ);
    var tempSonicaX := NumberMember(root, KeyTempSonicaX);
    var tempSonicaY := NumberMember(root, KeyTempSonicaY);
    var tempSonicaZ := NumberMember(root, KeyTempSonicaZ);
    AnemometerData(
      if timestamp.Some? then timestamp.value else d.timestamp,
      if xVout.Some? then xVout.value else d.xVout,
      if yVout.Some? then yVout.value else d.yVout,
      if zVout.Some? then zVout.value else d.zVout,
      if autocalibrazioneAsseX.Some? then autocalibrazioneAsseX.value else d.autocalibrazioneAsseX,
      if autocalibrazioneAsseY.Some? then autocalibrazioneAsseY.value else d.autocalibrazioneAsseY,
      if autocalibrazioneAsseZ.Some? then autocalibrazioneAsseZ.value else d.autocalibrazioneAsseZ,
      if autocalibrazioneMisuraX.Some? then autocalibrazioneMisuraX.value else d.autocalibrazioneMisuraX,
      if autocalibrazioneMisuraY.Some? then autocalibrazioneMisuraY.value else d.autocalibrazioneMisuraY,
      if autocalibrazioneMisuraZ.Some? then autocalibrazioneMisuraZ.value else d.autocalibrazioneMisuraZ,
      if tempSonicaX.Some? then tempSonicaX.value else d.tempSonicaX,
      if tempSonicaY.Some? then tempSonicaY.value else d.tempSonicaY,
      if tempSonicaZ.Some? then tempSonicaZ.value else d.tempSonicaZ)
  }

  /**
   * Field by field, the tolerant anemometer parser refreshes exactly the
   * fields the message carries with the right type and keeps every other one.
   */
  lemma ApplyAnemometerFields(d: AnemometerData, root: Json)
    ensures forall i :: 0 <= i < |AnemometerSchema| ==>
      AnemometerField(ApplyAnemometer(d, root), i) == Refresh(root, AnemometerSchema[i], AnemometerField(d, i))
  {
    forall i | 0 <= i < |AnemometerSchema|
      ensures AnemometerField(ApplyAnemometer(d, root), i) == Refresh(root, AnemometerSchema[i], AnemometerField(d, i))
    {
      ApplyAnemometerField(d, root, i);
    }
  }

  /** One entry of ApplyAnemometerFields. */
  lemma ApplyAnemometerField(d: AnemometerData, root: Json, i: nat)
    requires i < |AnemometerSchema|
    ensures AnemometerField(ApplyAnemometer(d, root), i) == Refresh(root, AnemometerSchema[i], AnemometerField(d, i))
  {
    AnemometerEntries();
    if i < 4 {
      ApplyAnemometerVout(d, root, i);
    } else if i < 7 {
      ApplyAnemometerAsse(d, root, i);
    } else if i < 10 {
      ApplyAnemometerMisura(d, root, i);
    } else {
      ApplyAnemometerTemp(d, root, i);
    }
  }

  /** The timestamp and the three output voltages. */
  lemma ApplyAnemometerVout(d: AnemometerData, root: Json, i: nat)
    requires i < 4
    ensures AnemometerField(ApplyAnemometer(d, root), i) == Refresh(root, AnemometerSchema[i], AnemometerField(d, i))
  {
    AnemometerEntries();
    match i
    case 0 => RefreshNumber(root, KeyTimestamp, d.timestamp);
    case 1 => RefreshNumber(root, KeyXVout, d.xVout);
    case 2 => RefreshNumber(root, KeyYVout, d.yVout);
    case _ => RefreshNumber(root, KeyZVout, d.zVout);
  }

  /** The three axis autocalibration flags. */
  lemma ApplyAnemometerAsse(d: AnemometerData, root: Json, i: nat)
    requires 4 <= i < 7
    ensures AnemometerField(ApplyAnemometer(d, root), i) == Refresh(root, AnemometerSchema[i], AnemometerField(d, i))
  {
    AnemometerEntries();
    match i
    case 4 => RefreshBool(root, KeyAutocalibrazioneAsseX, d.autocalibrazioneAsseX);
    case 5 => RefreshBool(root, KeyAutocalibrazioneAsseY, d.autocalibrazioneAsseY);
    case _ => RefreshBool(root, KeyAutocalibrazioneAsseZ, d.autocalibrazioneAsseZ);
  }

  /** The three measurement autocalibration flags. */
  lemma ApplyAnemometerMisura(d: AnemometerData, root: Json, i: nat)
    requires 7 <= i < 10
    ensures AnemometerField(ApplyAnemometer(d, root), i) == Refresh(root, AnemometerSchema[i], AnemometerField(d, i))
  {
    AnemometerEntries();
    match i
    case 7 => RefreshBool(root, KeyAutocalibrazioneMisuraX, d.autocalibrazioneMisuraX);
    case 8 => RefreshBool(root, KeyAutocalibrazioneMisuraY, d.autocalibrazioneMisuraY);
    case _ => RefreshBool(root, KeyAutocalibrazioneMisuraZ, d.autocalibrazioneMisuraZ);
  }

  /** The three sonic temperatures. */
  lemma ApplyAnemometerTemp(d: AnemometerData, root: Json, i: nat)
    requires 10 <= i < 13
    ensures AnemometerField(ApplyAnemometer(d, root), i) == Refresh(root, AnemometerSchema[i], AnemometerField(d, i))
  {
    AnemometerEntries();
    match i
    case 10 => RefreshNumber(root, KeyTempSonicaX, d.tempSonicaX);
    case 11 => RefreshNumber(root, KeyTempSonicaY, d.tempSonicaY);
    case _ => RefreshNumber(root, KeyTempSonicaZ, d.tempSonicaZ);
  }

  /** This variant's AnemometerData struct, written in place by the parser. */
  class AnemometerRecord {
    var timestamp: Float64
    var xVout: Float64
    var yVout: Float64
    var zVout: Float64
    var autocalibrazioneAsseX: bool
    var autocalibrazioneAsseY: bool
    var autocalibrazioneAsseZ: bool
    var autocalibrazioneMisuraX: bool
    var autocalibrazioneMisuraY: bool
    var autocalibrazioneMisuraZ: bool
    var tempSonicaX: Float64
    var tempSonicaY: Float64
    var tempSonicaZ: Float64

    /** The struct's current contents. */
    function Value(): AnemometerData
      reads this
    {
      AnemometerData(timestamp, xVout, yVout, zVout,
        autocalibrazioneAsseX, autocalibrazioneAsseY, autocalibrazioneAsseZ,
        autocalibrazioneMisuraX, autocalibrazioneMisuraY, autocalibrazioneMisuraZ,
        tempSonicaX, tempSonicaY, tempSonicaZ)
    }

    /** Writes every field of the struct, one group after the other. */
    method Store(d: AnemometerData)
      modifies this
      ensures Value() == d
    {
      StoreVouts(d);
      StoreCalibration(d);
      StoreTemperatures(d);
    }

    /** Writes the timestamp and the three axis outputs. */
    method StoreVouts(d: AnemometerData)
      modifies this
      ensures Value() == old(Value()).(timestamp := d.timestamp, xVout := d.xVout, yVout := d.yVout, zVout := d.zVout)
    {
      timestamp := d.timestamp;
      xVout := d.xVout;
      yVout := d.yVout;
      zVout := d.zVout;
    }

    /** Writes the six autocalibration flags. */
    method StoreCalibration(d: AnemometerData)
      modifies this
      ensures Value() == old(Value()).(autocalibrazioneAsseX := d.autocalibrazioneAsseX, autocalibrazioneAsseY := d.autocalibrazioneAsseY, autocalibrazioneAsseZ := d.autocalibrazioneAsseZ, autocalibrazioneMisuraX := d.autocalibrazioneMisuraX, autocalibrazioneMisuraY := d.autocalibrazioneMisuraY, autocalibrazioneMisuraZ := d.autocalibrazioneMisuraZ)
    {
      autocalibrazioneAsseX := d.autocalibrazioneAsseX;
      autocalibrazioneAsseY := d.autocalibrazioneAsseY;
      autocalibrazioneAsseZ := d.autocalibrazioneAsseZ;
      autocalibrazioneMisuraX := d.autocalibrazioneMisuraX;
      autocalibrazioneMisuraY := d.autocalibrazioneMisuraY;
      autocalibrazioneMisuraZ := d.autocalibrazioneMisuraZ;
    }

    /** Writes the three sonic temperatures. */
    method StoreTemperatures(d: AnemometerData)
      modifies this
      ensures Value() == old(Value()).(tempSonicaX := d.tempSonicaX, tempSonicaY := d.tempSonicaY, tempSonicaZ := d.tempSonicaZ)
    {
      tempSonicaX := d.tempSonicaX;
      tempSonicaY := d.tempSonicaY;
      tempSonicaZ := d.tempSonicaZ;
    }
  }

  /**
   * anemometer_data_default: every measurement and flag back to zero or false;
   * the timestamp is not among the fields it assigns.
   */
  method AnemometerDataDefault(anmData: AnemometerRecord)
    modifies anmData
    ensures anmData.Value() == AnemometerData(old(anmData.timestamp),
      Zero, Zero, Zero, false, false, false, false, false, false, Zero, Zero, Zero)
  {
    anmData.xVout := Zero;
    anmData.yVout := Zero;
    anmData.zVout := Zero;

    anmData.autocalibrazioneAsseX := false;
    anmData.autocalibrazioneAsseY := false;
    anmData.autocalibrazioneAsseZ := false;

    anmData.autocalibrazioneMisuraX := false;
    anmData.autocalibrazioneMisuraY := false;
    anmData.autocalibrazioneMisuraZ := false;

    anmData.tempSonicaX := Zero;
    anmData.tempSonicaY := Zero;
    anmData.tempSonicaZ := Zero;
  }

  /**
   * parse_anemometer_data of this variant: each field is overwritten only when
   * its key holds a value of the field's type, every other field keeps its
   * value, and the result is always true. The thirteen conditional writes are
   * gathered into one refreshed record that is written back in place.
   */
  method ParseAnemometerData(root: Json, anmData: AnemometerRecord) returns (ok: bool)
    modifies anmData
    ensures ok
    ensures anmData.Value() == ApplyAnemometer(old(anmData.Value()), root)
  {
    var refreshed := ApplyAnemometer(anmData.Value(), root);
    anmData.Store(refreshed);
    return true;
  }

  // ---------------------------------------------------------------------------
  // Particulate matter
  // ---------------------------------------------------------------------------

  /** A snapshot of this variant's ParticulateMatterData struct; each unit is the C string it holds. */
  datatype ParticulateMatterData = ParticulateMatterData(
    timestamp: Float64,
    massDensityPm1_0: Float64, massDensityPm2_5: Float64, massDensityPm4_0: Float64, massDensityPm10: Float64,
    particleCount0_5: Float64, particleCount1_0: Float64, particleCount2_5: Float64,
    particleCount4_0: Float64, particleCount10: Float64,
    particleSize: Float64,
    massDensityUnit: string, particleCountUnit: string, particleSizeUnit: string)

  /** The field of `d` that entry i of ParticulateMatterSchema describes. */
  function ParticulateMatterField(d: ParticulateMatterData, i: nat): FieldValue
    requires i < |ParticulateMatterSchema|
  {
    match i
    case 0 => NumberValue(d.timestamp)
    case 1 => NumberValue(d.massDensityPm1_0)
    case 2 => NumberValue(d.massDensityPm2_5)
    case 3 => NumberValue(d.massDensityPm4_0)
    case 4 => NumberValue(d.massDensityPm10)
    case 5 => NumberValue(d.particleCount0_5)
    case 6 => NumberValue(d.particleCount1_0)
    case 7 => NumberValue(d.particleCount2_5)
    case 8 => NumberValue(d.particleCount4_0)
    case 9 => NumberValue(d.particleCount10)
    case 10 => NumberValue(d.particleSize)
    case 11 => StringValue(d.massDensityUnit)
    case 12 => StringValue(d.particleCountUnit)
    case _ => StringValue(d.particleSizeUnit)
  }

  // The keys of an "sps" message in this variant.
  const KeySensorData := "sensor_data"
  const KeyMassDensity := "mass_density"
  const KeyParticleCount := "particle_count"
  const KeyPm0_5 := "pm0.5"
  const KeyPm1_0 := "pm1.0"
  const KeyPm2_5 := "pm2.5"
  const KeyPm4_0 := "pm4.0"
  const KeyPm10 := "pm10"
  const KeyParticleSize := "particle_size"
  const KeyMassDensityUnit := "mass_density_unit"
  const KeyParticleCountUnit := "particle_count_unit"
  const KeyParticleSizeUnit := "particle_size_unit"

  /** The fourteen fields of an "sps" message, with the path of objects that leads to each. */
  const ParticulateMatterSchema: seq<Field> := [
    Field([KeyTimestamp], NumberKind),
    Field([KeySensorData, KeyMassDensity, KeyPm1_0], NumberKind),
    Field([KeySensorData, KeyMassDensity, KeyPm2_5], NumberKind),
    Field([KeySensorData, KeyMassDensity, KeyPm4_0], NumberKind),
    Field([KeySensorData, KeyMassDensity, KeyPm10], NumberKind),
    Field([KeySensorData, KeyParticleCount, KeyPm0_5], NumberKind),
    Field([KeySensorData, KeyParticleCount, KeyPm1_0], NumberKind),
    Field([KeySensorData, KeyParticleCount, KeyPm2_5], NumberKind),
    Field([KeySensorData, KeyParticleCount, KeyPm4_0], NumberKind),
    Field([KeySensorData, KeyParticleCount, KeyPm10], NumberKind),
    Field([KeySensorData, KeyParticleSize], NumberKind),
    Field([KeySensorData, KeyMassDensityUnit], StringKind),
    Field([KeySensorData, KeyParticleCountUnit], StringKind),
    Field([KeySensorData, KeyParticleSizeUnit], StringKind)
  ]

  /** The entries of the particulate matter table, one by one. */
  lemma ParticulateMatterEntries()
    ensures ParticulateMatterSchema[0] == Field([KeyTimestamp], NumberKind)
    ensures ParticulateMatterSchema[1] == Field([KeySensorData, KeyMassDensity, KeyPm1_0], NumberKind)
    ensures ParticulateMatterSchema[2] == Field([KeySensorData, KeyMassDensity, KeyPm2_5], NumberKind)
    ensures ParticulateMatterSchema[3] == Field([KeySensorData, KeyMassDensity, KeyPm4_0], NumberKind)
    ensures ParticulateMatterSchema[4] == Field([KeySensorData, KeyMassDensity, KeyPm10], NumberKind)
    ensures ParticulateMatterSchema[5] == Field([KeySensorData, KeyParticleCount, KeyPm0_5], NumberKind)
    ensures ParticulateMatterSchema[6] == Field([KeySensorData, KeyParticleCount, KeyPm1_0], NumberKind)
    ensures ParticulateMatterSchema[7] == Field([KeySensorData, KeyParticleCount, KeyPm2_5], NumberKind)
    ensures ParticulateMatterSchema[8] == Field([KeySensorData, KeyParticleCount, KeyPm4_0], NumberKind)
    ensures ParticulateMatterSchema[9] == Field([KeySensorData, KeyParticleCount, KeyPm10], NumberKind)
    ensures ParticulateMatterSchema[10] == Field([KeySensorData, KeyParticleSize], NumberKind)
    ensures ParticulateMatterSchema[11] == Field([KeySensorData, KeyMassDensityUnit], StringKind)
    ensures ParticulateMatterSchema[12] == Field([KeySensorData, KeyParticleCountUnit], StringKind)
    ensures ParticulateMatterSchema[13] == Field([KeySensorData, KeyParticleSizeUnit], StringKind)
  {
  }

  /**
   * The record parse_particulate_matter_data leaves behind when it held `d`:
   * the timestamp is refreshed from the root, everything else only through a
   * `sensor_data` object.
   */
  function ApplyParticulateMatter(d: ParticulateMatterData, root: Json): ParticulateMatterData {
    var refreshed := d.(timestamp := NumberMember(root, KeyTimestamp).UnwrapOr(d.timestamp));
    var sensorData := GetObjectItem(root, KeySensorData);
    if IsObject(sensorData) then ApplySensorData(refreshed, sensorData.value) else refreshed
  }

  /** The fields read from a `sensor_data` object: two groups behind their own object test, then size and units. */
  function ApplySensorData(d: ParticulateMatterData, sensorData: Json): ParticulateMatterData {
    var massDensity := GetObjectItem(sensorData, KeyMassDensity);
    var withMassDensity := if IsObject(massDensity) then ApplyMassDensity(d, massDensity.value) else d;
    var particleCount := GetObjectItem(sensorData, KeyParticleCount);
    var withCounts := if IsObject(particleCount) then ApplyParticleCount(withMassDensity, particleCount.value) else withMassDensity;
    withCounts.(
      particleSize := NumberMember(sensorData, KeyParticleSize).UnwrapOr(withCounts.particleSize),
      massDensityUnit := CStringMember(sensorData, KeyMassDensityUnit).UnwrapOr(withCounts.massDensityUnit),
      particleCountUnit := CStringMember(sensorData, KeyParticleCountUnit).UnwrapOr(withCounts.particleCountUnit),
      particleSizeUnit := CStringMember(sensorData, KeyParticleSizeUnit).UnwrapOr(withCounts.particleSizeUnit))
  }

  /** The four numbers read from a `mass_density` object. */
  function ApplyMassDensity(d: ParticulateMatterData, massDensity: Json): ParticulateMatterData {
    d.(massDensityPm1_0 := NumberMember(massDensity, KeyPm1_0).UnwrapOr(d.massDensityPm1_0),
       massDensityPm2_5 := NumberMember(massDensity, KeyPm2_5).UnwrapOr(d.massDensityPm2_5),
       massDensityPm4_0 := NumberMember(massDensity, KeyPm4_0).UnwrapOr(d.massDensityPm4_0),
       massDensityPm10 := NumberMember(massDensity, KeyPm10).UnwrapOr(d.massDensityPm10))
  }

  /** The five numbers read from a `particle_count` object. */
  function ApplyParticleCount(d: ParticulateMatterData, particleCount: Json): ParticulateMatterData {
    d.(particleCount0_5 := NumberMember(particleCount, KeyPm0_5).UnwrapOr(d.particleCount0_5),
       particleCount1_0 := NumberMember(particleCount, KeyPm1_0).UnwrapOr(d.particleCount1_0),
       particleCount2_5 := NumberMember(particleCount, KeyPm2_5).UnwrapOr(d.particleCount2_5),
       particleCount4_0 := NumberMember(particleCount, KeyPm4_0).UnwrapOr(d.particleCount4_0),
       particleCount10 := NumberMember(particleCount, KeyPm10).UnwrapOr(d.particleCount10))
  }

  /**
   * Field by field, the tolerant particulate matter parser refreshes exactly
   * the fields whose whole path of objects is present and whose value has the
   * right type, and keeps every other one.
   */
  lemma ApplyParticulateMatterFields(d: ParticulateMatterData, root: Json)
    ensures forall i :: 0 <= i < |ParticulateMatterSchema| ==>
      ParticulateMatterField(ApplyParticulateMatter(d, root), i) == Refresh(root, ParticulateMatterSchema[i], ParticulateMatterField(d, i))
  {
    forall i | 0 <= i < |ParticulateMatterSchema|
      ensures ParticulateMatterField(ApplyParticulateMatter(d, root), i) == Refresh(root, ParticulateMatterSchema[i], ParticulateMatterField(d, i))
    {
      ParticulateMatterEntries();
      if i == 0 {
        RefreshNumber(root, KeyTimestamp, d.timestamp);
      } else if i < 5 {
        ApplyMassDensityField(d, root, i);
      } else if i < 10 {
        ApplyParticleCountField(d, root, i);
      } else {
        ApplySensorDataField(d, root, i);
      }
    }
  }

  /** The entries of the `mass_density` group. */
  lemma ApplyMassDensityField(d: ParticulateMatterData, root: Json, i: nat)
    requires 1 <= i < 5
    ensures ParticulateMatterField(ApplyParticulateMatter(d, root), i) == Refresh(root, ParticulateMatterSchema[i], ParticulateMatterField(d, i))
  {
    ParticulateMatterEntries();
    match i
    case 1 => RefreshNumber3(root, KeySensorData, KeyMassDensity, KeyPm1_0, d.massDensityPm1_0);
    case 2 => RefreshNumber3(root, KeySensorData, KeyMassDensity, KeyPm2_5, d.massDensityPm2_5);
    case 3 => RefreshNumber3(root, KeySensorData, KeyMassDensity, KeyPm4_0, d.massDensityPm4_0);
    case _ => RefreshNumber3(root, KeySensorData, KeyMassDensity, KeyPm10, d.massDensityPm10);
  }

  /** The entries of the `particle_count` group. */
  lemma ApplyParticleCountField(d: ParticulateMatterData, root: Json, i: nat)
    requires 5 <= i < 10
    ensures ParticulateMatterField(ApplyParticulateMatter(d, root), i) == Refresh(root, ParticulateMatterSchema[i], ParticulateMatterField(d, i))
  {
    ParticulateMatterEntries();
    match i
    case 5 => RefreshNumber3(root, KeySensorData, KeyParticleCount, KeyPm0_5, d.particleCount0_5);
    case 6 => RefreshNumber3(root, KeySensorData, KeyParticleCount, KeyPm1_0, d.particleCount1_0);
    case 7 => RefreshNumber3(root, KeySensorData, KeyParticleCount, KeyPm2_5, d.particleCount2_5);
    case 8 => RefreshNumber3(root, KeySensorData, KeyParticleCount, KeyPm4_0, d.particleCount4_0);
    case _ => RefreshNumber3(root, KeySensorData, KeyParticleCount, KeyPm10, d.particleCount10);
  }

  /** The size and the three units, read straight from `sensor_data`. */
  lemma ApplySensorDataField(d: ParticulateMatterData, root: Json, i: nat)
    requires 10 <= i < 14
    ensures ParticulateMatterField(ApplyParticulateMatter(d, root), i) == Refresh(root, ParticulateMatterSchema[i], ParticulateMatterField(d, i))
  {
    ParticulateMatterEntries();
    match i
    case 10 => RefreshNumber2(root, KeySensorData, KeyParticleSize, d.particleSize);
    case 11 => RefreshString2(root, KeySensorData, KeyMassDensityUnit, d.massDensityUnit);
    case 12 => RefreshString2(root, KeySensorData, KeyParticleCountUnit, d.particleCountUnit);
    case _ => RefreshString2(root, KeySensorData, KeyParticleSizeUnit, d.particleSizeUnit);
  }

  /** Without a `sensor_data` object only the timestamp can change. */
  lemma SensorDataMissingKeepsMeasurements(d: ParticulateMatterData, root: Json)
    requires !IsObject(GetObjectItem(root, KeySensorData))
    ensures forall i :: 1 <= i < |ParticulateMatterSchema| ==> ParticulateMatterField(ApplyParticulateMatter(d, root), i) == ParticulateMatterField(d, i)
  {
  }

  /** Without a `mass_density` object the four mass densities keep their values. */
  lemma MassDensityMissingKeepsGroup(d: ParticulateMatterData, root: Json)
    requires !IsObject(Lookup(root, [KeySensorData, KeyMassDensity]))
    ensures forall i :: 1 <= i < 5 ==> ParticulateMatterField(ApplyParticulateMatter(d, root), i) == ParticulateMatterField(d, i)
  {
    LookupSingle(root, KeySensorData);
    LookupSnoc(root, [KeySensorData], KeyMassDensity);
    assert [KeySensorData] + [KeyMassDensity] == [KeySensorData, KeyMassDensity];
  }

  /** Without a `particle_count` object the five particle counts keep their values. */
  lemma ParticleCountMissingKeepsGroup(d: ParticulateMatterData, root: Json)
    requires !IsObject(Lookup(root, [KeySensorData, KeyParticleCount]))
    ensures forall i :: 5 <= i < 10 ==> ParticulateMatterField(ApplyParticulateMatter(d, root), i) == ParticulateMatterField(d, i)
  {
    LookupSingle(root, KeySensorData);
    LookupSnoc(root, [KeySensorData], KeyParticleCount);
    assert [KeySensorData] + [KeyParticleCount] == [KeySensorData, KeyParticleCount];
  }

  /** This variant's ParticulateMatterData struct; the parser writes the global instance. */
  class ParticulateMatterRecord {
    var timestamp: Float64
    var massDensityPm1_0: Float64
    var massDensityPm2_5: Float64
    var massDensityPm4_0: Float64
    var massDensityPm10: Float64
    var particleCount0_5: Float64
    var particleCount1_0: Float64
    var particleCount2_5: Float64
    var particleCount4_0: Float64
    var particleCount10: Float64
    var particleSize: Float64
    var massDensityUnit: string
    var particleCountUnit: string
    var particleSizeUnit: string

    /** The struct's current contents. */
    function Value(): ParticulateMatterData
      reads this
    {
      ParticulateMatterData(timestamp,
        massDensityPm1_0, massDensityPm2_5, massDensityPm4_0, massDensityPm10,
        particleCount0_5, particleCount1_0, particleCount2_5, particleCount4_0, particleCount10,
        particleSize, massDensityUnit, particleCountUnit, particleSizeUnit)
    }

    /** Writes every field of the struct, one group after the other. */
    method Store(d: ParticulateMatterData)
      modifies this
      ensures Value() == d
    {
      StoreMassDensity(d);
      StoreParticleCount(d);
      StoreSizeAndUnits(d);
    }

    /** Writes the timestamp and the four mass densities. */
    method StoreMassDensity(d: ParticulateMatterData)
      modifies this
      ensures Value() == old(Value()).(timestamp := d.timestamp, massDensityPm1_0 := d.massDensityPm1_0, massDensityPm2_5 := d.massDensityPm2_5, massDensityPm4_0 := d.massDensityPm4_0, massDensityPm10 := d.massDensityPm10)
    {
      timestamp := d.timestamp;
      massDensityPm1_0 := d.massDensityPm1_0;
      massDensityPm2_5 := d.massDensityPm2_5;
      massDensityPm4_0 := d.massDensityPm4_0;
      massDensityPm10 := d.massDensityPm10;
    }

    /** Writes the five particle counts. */
    method StoreParticleCount(d: ParticulateMatterData)
      modifies this
      ensures Value() == old(Value()).(particleCount0_5 := d.particleCount0_5, particleCount1_0 := d.particleCount1_0, particleCount2_5 := d.particleCount2_5, particleCount4_0 := d.particleCount4_0, particleCount10 := d.particleCount10)
    {
      particleCount0_5 := d.particleCount0_5;
      particleCount1_0 := d.particleCount1_0;
      particleCount2_5 := d.particleCount2_5;
      particleCount4_0 := d.particleCount4_0;
      particleCount10 := d.particleCount10;
    }

    /** Writes the typical particle size and the three units. */
    method StoreSizeAndUnits(d: ParticulateMatterData)
      modifies this
      ensures Value() == old(Value()).(particleSize := d.particleSize, massDensityUnit := d.massDensityUnit, particleCountUnit := d.particleCountUnit, particleSizeUnit := d.particleSizeUnit)
    {
      particleSize := d.particleSize;
      massDensityUnit := d.massDensityUnit;
      particleCountUnit := d.particleCountUnit;
      particleSizeUnit := d.particleSizeUnit;
    }
  }

  /** Every number zero and every unit empty. */
  const ParticulateMatterZero := ParticulateMatterData(Zero,
    Zero, Zero, Zero, Zero, Zero, Zero, Zero, Zero, Zero, Zero, "", "", "")

  /**
   * particulate_matter_data_default of this variant as written: the line meant
   * for pm4.0 assigns pm1.0 a second time, so pm4.0 keeps its value.
   */
  function ParticulateMatterDefaultAsWritten(d: ParticulateMatterData): ParticulateMatterData {
    d.(timestamp := Zero,
       massDensityPm1_0 := Zero, massDensityPm2_5 := Zero, massDensityPm10 := Zero,
       particleCount0_5 := Zero, particleCount1_0 := Zero, particleCount2_5 := Zero,
       particleCount4_0 := Zero, particleCount10 := Zero,
       particleSize := Zero,
       massDensityUnit := "", particleSizeUnit := "", particleCountUnit := "")
  }

  /**
   * The default as written clears every field but pm4.0, which keeps its
   * value, so it reaches the zero record only when pm4.0 already was zero.
   */
  lemma DefaultAsWrittenKeepsPm4_0(d: ParticulateMatterData)
    ensures ParticulateMatterDefaultAsWritten(d) == ParticulateMatterZero.(massDensityPm4_0 := d.massDensityPm4_0)
    ensures ParticulateMatterDefaultAsWritten(d) == ParticulateMatterZero <==> d.massDensityPm4_0 == Zero
  {
  }

  /**
   * particulate_matter_data_default with its evident intent: every number,
   * pm4.0 included, back to zero and every unit emptied.
   */
  method ParticulateMatterDataDefault(pmData: ParticulateMatterRecord)
    modifies pmData
    ensures pmData.Value() == ParticulateMatterZero
  {
    pmData.Store(ParticulateMatterZero);
  }

  /**
   * parse_particulate_matter_data of this variant: the timestamp and then,
   * inside a `sensor_data` object, each field whose value has its type; the
   * result is always true. Like the other variant, it writes the global
   * record and leaves `spsData` alone.
   */
  method ParseParticulateMatterData(root: Json, spsData: ParticulateMatterRecord,
                                    particulateMatterData: ParticulateMatterRecord) returns (ok: bool)
    modifies particulateMatterData
    ensures ok
    ensures particulateMatterData.Value() == ApplyParticulateMatter(old(particulateMatterData.Value()), root)
  {
    var refreshed := ApplyParticulateMatter(particulateMatterData.Value(), root);
    particulateMatterData.Store(refreshed);
    return true;
  }
}
