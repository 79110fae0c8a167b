/**
 * The strict receive-side parsers of the firmware (main/data.c): every field of
 * a message is validated before any field of the record is written, so a
 * message is applied whole or not at all.
 */
module StrictData {
  import opened Wrappers
  import opened CTypes
  import opened CJson
  import opened Schema
  import opened Topics
  import UartUtils

  // ---------------------------------------------------------------------------
  // Anemometer
  // ---------------------------------------------------------------------------

  /** A snapshot of the AnemometerData struct. */
  datatype AnemometerData = AnemometerData(
    timestamp: uint32,
    xKalman: Float64, autocalibrazioneAsseX: bool, autocalibrazioneMisuraX: bool, tempSonicaX: Float64,
    yKalman: Float64, autocalibrazioneAsseY: bool, autocalibrazioneMisuraY: bool, tempSonicaY: Float64,
    zKalman: Float64, autocalibrazioneAsseZ: bool, autocalibrazioneMisuraZ: bool, tempSonicaZ: Float64)
  {
    /** The field that entry i of AnemometerSchema describes. */
    function At(i: nat): FieldValue
      requires i < |AnemometerSchema|
    {
      match i
      case 0 => Uint32Value(timestamp)
      case 1 => NumberValue(xKalman)
      case 2 => NumberValue(yKalman)
      case 3 => NumberValue(zKalman)
      case 4 => BoolValue(autocalibrazioneAsseX)
      case 5 => BoolValue(autocalibrazioneAsseY)
      case 6 => BoolValue(autocalibrazioneAsseZ)
      case 7 => BoolValue(autocalibrazioneMisuraX)
      case 8 => BoolValue(autocalibrazioneMisuraY)
      case 9 => BoolValue(autocalibrazioneMisuraZ)
      case 10 => NumberValue(tempSonicaX)
      case 11 => NumberValue(tempSonicaY)
      case _ => NumberValue(tempSonicaZ)
    }
  }

  // The keys of an "anm" message.
  const KeyTimestamp := "timestamp"
  const KeyXKalman := "x_kalman"
  const KeyYKalman := "y_kalman"
  const KeyZKalman := "z_kalman"
  const KeyAutocalibrazioneAsseX := "autocalibrazione_asse_x"
  const KeyAutocalibrazioneAsseY := "autocalibrazione_asse_y"
  const KeyAutocalibrazioneAsseZ := "autocalibrazione_asse_z"
  const KeyAutocalibrazioneMisuraX := "autocalibrazione_misura_x"
  const KeyAutocalibrazioneMisuraY := "autocalibrazione_misura_y"
  const KeyAutocalibrazioneMisuraZ := "autocalibrazione_misura_z"
  const KeyTempSonicaX := "temp_sonica_x"
  const KeyTempSonicaY := "temp_sonica_y"
  const KeyTempSonicaZ := "temp_sonica_z"

  /** The thirteen fields of an "anm" message, in the order the parser tests them. */
  const AnemometerSchema: seq<Field> := [
    Field([KeyTimestamp], Uint32Kind),
    Field([KeyXKalman], NumberKind),
    Field([KeyYKalman], NumberKind),
    Field([KeyZKalman], NumberKind),
    Field([KeyAutocalibrazioneAsseX], BoolKind),
    Field([KeyAutocalibrazioneAsseY], BoolKind),
    Field([KeyAutocalibrazioneAsseZ], BoolKind),
    Field([KeyAutocalibrazioneMisuraX], BoolKind),
    Field([KeyAutocalibrazioneMisuraY], BoolKind),
    Field([KeyAutocalibrazioneMisuraZ], BoolKind),
    Field([KeyTempSonicaX], NumberKind),
    Field([KeyTempSonicaY], NumberKind),
    Field([KeyTempSonicaZ], NumberKind)
  ]

  /**
   * What parse_anemometer_data validates and stores: None when any field is
   * missing or has the wrong type, otherwise the record it writes.
   */
  function DecodeAnemometer(root: Json): (r: Option<AnemometerData>)
    ensures r.Some? <==> Conforms(root, AnemometerSchema)
  {
    AnemometerConforms(root);
    var timestamp := GetObjectItem(root, KeyTimestamp);
    var xKalman := GetObjectItem(root, KeyXKalman);
    var yKalman := GetObjectItem(root, KeyYKalman);
    var zKalman := GetObjectItem(root, KeyZKalman);
    var asseX := GetObjectItem(root, KeyAutocalibrazioneAsseX);
    var asseY := GetObjectItem(root, KeyAutocalibrazioneAsseY);
    var asseZ := GetObjectItem(root, KeyAutocalibrazioneAsseZ);
    var misuraX := GetObjectItem(root, KeyAutocalibrazioneMisuraX);
    var misuraY := GetObjectItem(root, KeyAutocalibrazioneMisuraY);
    var misuraZ := GetObjectItem(root, KeyAutocalibrazioneMisuraZ);
    var tempX := GetObjectItem(root, KeyTempSonicaX);
    var tempY := GetObjectItem(root, KeyTempSonicaY);
    var tempZ := GetObjectItem(root, KeyTempSonicaZ);
    if !IsNumber(timestamp) then None
    else if !IsNumber(xKalman) then None
    else if !IsNumber(yKalman) then None
    else if !IsNumber(zKalman) then None
    else if !IsBool(asseX) then None
    else if !IsBool(asseY) then None
    else if !IsBool(asseZ) then None
    else if !IsBool(misuraX) then None
    else if !IsBool(misuraY) then None
    else if !IsBool(misuraZ) then None
    else if !IsNumber(tempX) then None
    else if !IsNumber(tempY) then None
    else if !IsNumber(tempZ) then None
    else Some(AnemometerData(
      ToUint32(timestamp.value.valueint),
      xKalman.value.valuedouble, IsTrue(asseX), IsTrue(misuraX), tempX.value.valuedouble,
      yKalman.value.valuedouble, IsTrue(asseY), IsTrue(misuraY), tempY.value.valuedouble,
      zKalman.value.valuedouble, IsTrue(asseZ), IsTrue(misuraZ), tempZ.value.valuedouble))
  }

  /** A decoded record holds, field by field, the value the table extracts from the message. */
  lemma DecodeAnemometerFields(root: Json)
    requires DecodeAnemometer(root).Some?
    ensures forall i :: 0 <= i < |AnemometerSchema| ==>
      DecodeAnemometer(root).value.At(i) == Extract(root, AnemometerSchema[i])
  {
    AnemometerEntries();
    PresentKey(root, KeyTimestamp, Uint32Kind);
    PresentKey(root, KeyXKalman, NumberKind);
    PresentKey(root, KeyYKalman, NumberKind);
    PresentKey(root, KeyZKalman, NumberKind);
    PresentKey(root, KeyAutocalibrazioneAsseX, BoolKind);
    PresentKey(root, KeyAutocalibrazioneAsseY, BoolKind);
    PresentKey(root, KeyAutocalibrazioneAsseZ, BoolKind);
    PresentKey(root, KeyAutocalibrazioneMisuraX, BoolKind);
    PresentKey(root, KeyAutocalibrazioneMisuraY, BoolKind);
    PresentKey(root, KeyAutocalibrazioneMisuraZ, BoolKind);
    PresentKey(root, KeyTempSonicaX, NumberKind);
    PresentKey(root, KeyTempSonicaY, NumberKind);
    PresentKey(root, KeyTempSonicaZ, NumberKind);
  }

  /** The entries of the anemometer table, one by one. */
  lemma AnemometerEntries()
    ensures AnemometerSchema[0] == Field([KeyTimestamp], Uint32Kind)
    ensures AnemometerSchema[1] == Field([KeyXKalman], NumberKind)
    ensures AnemometerSchema[2] == Field([KeyYKalman], NumberKind)
    ensures AnemometerSchema[3] == Field([KeyZKalman], NumberKind)
    ensures AnemometerSchema[4] == Field([KeyAutocalibrazioneAsseX], BoolKind)
    ensures AnemometerSchema[5] == Field([KeyAutocalibrazioneAsseY], BoolKind)
    ensures AnemometerSchema[6] == Field([KeyAutocalibrazioneAsseZ], BoolKind)
    ensures AnemometerSchema[7] == Field([KeyAutocalibrazioneMisuraX], BoolKind)
    ensures AnemometerSchema[8] == Field([KeyAutocalibrazioneMisuraY], BoolKind)
    ensures AnemometerSchema[9] == Field([KeyAutocalibrazioneMisuraZ], BoolKind)
    ensures AnemometerSchema[10] == Field([KeyTempSonicaX], NumberKind)
    ensures AnemometerSchema[11] == Field([KeyTempSonicaY], NumberKind)
    ensures AnemometerSchema[12] == Field([KeyTempSonicaZ], NumberKind)
  {
  }

  /** Conformance to the anemometer table is the conjunction of the thirteen type tests. */
  lemma AnemometerConforms(root: Json)
    ensures Conforms(root, AnemometerSchema) <==>
      && IsNumber(GetObjectItem(root, KeyTimestamp))
      && IsNumber(GetObjectItem(root, KeyXKalman))
      && IsNumber(GetObjectItem(root, KeyYKalman))
      && IsNumber(GetObjectItem(root, KeyZKalman))
      && IsBool(GetObjectItem(root, KeyAutocalibrazioneAsseX))
      && IsBool(GetObjectItem(root, KeyAutocalibrazioneAsseY))
      && IsBool(GetObjectItem(root, KeyAutocalibrazioneAsseZ))
      && IsBool(GetObjectItem(root, KeyAutocalibrazioneMisuraX))
      && IsBool(GetObjectItem(root, KeyAutocalibrazioneMisuraY))
      && IsBool(GetObjectItem(root, KeyAutocalibrazioneMisuraZ))
      && IsNumber(GetObjectItem(root, KeyTempSonicaX))
      && IsNumber(GetObjectItem(root, KeyTempSonicaY))
      && IsNumber(GetObjectItem(root, KeyTempSonicaZ))
  {
    AnemometerEntries();
    PresentKey(root, KeyTimestamp, Uint32Kind);
    PresentKey(root, KeyXKalman, NumberKind);
    PresentKey(root, KeyYKalman, NumberKind);
    PresentKey(root, KeyZKalman, NumberKind);
    PresentKey(root, KeyAutocalibrazioneAsseX, BoolKind);
    PresentKey(root, KeyAutocalibrazioneAsseY, BoolKind);
    PresentKey(root, KeyAutocalibrazioneAsseZ, BoolKind);
    PresentKey(root, KeyAutocalibrazioneMisuraX, BoolKind);
    PresentKey(root, KeyAutocalibrazioneMisuraY, BoolKind);
    PresentKey(root, KeyAutocalibrazioneMisuraZ, BoolKind);
    PresentKey(root, KeyTempSonicaX, NumberKind);
    PresentKey(root, KeyTempSonicaY, NumberKind);
    PresentKey(root, KeyTempSonicaZ, NumberKind);
    if AnemometerGuards(root) {
      AnemometerGuardsConform(root);
    }
  }

  /** The thirteen type tests of parse_anemometer_data, in its order. */
  predicate AnemometerGuards(root: Json) {
    && IsNumber(GetObjectItem(root, KeyTimestamp))
    && IsNumber(GetObjectItem(root, KeyXKalman))
    && IsNumber(GetObjectItem(root, KeyYKalman))
    && IsNumber(GetObjectItem(root, KeyZKalman))
    && IsBool(GetObjectItem(root, KeyAutocalibrazioneAsseX))
    && IsBool(GetObjectItem(root, KeyAutocalibrazioneAsseY))
    && IsBool(GetObjectItem(root, KeyAutocalibrazioneAsseZ))
    && IsBool(GetObjectItem(root, KeyAutocalibrazioneMisuraX))
    && IsBool(GetObjectItem(root, KeyAutocalibrazioneMisuraY))
    && IsBool(GetObjectItem(root, KeyAutocalibrazioneMisuraZ))
    && IsNumber(GetObjectItem(root, KeyTempSonicaX))
    && IsNumber(GetObjectItem(root, KeyTempSonicaY))
    && IsNumber(GetObjectItem(root, KeyTempSonicaZ))
  }

  lemma AnemometerGuardsConform(root: Json)
    requires AnemometerGuards(root)
    ensures Conforms(root, AnemometerSchema)
  {
    forall i | 0 <= i < |AnemometerSchema|
      ensures Present(root, AnemometerSchema[i])
    {
      AnemometerGuardPresent(root, i);
    }
  }

  /** The guard for entry `i` of the anemometer table makes that entry present. */
  lemma AnemometerGuardPresent(root: Json, i: nat)
    requires AnemometerGuards(root)
    requires i < |AnemometerSchema|
    ensures Present(root, AnemometerSchema[i])
  {
    AnemometerEntries();
    if i == 0 {
      PresentKey(root, KeyTimestamp, Uint32Kind);
    } else if i == 1 {
      PresentKey(root, KeyXKalman, NumberKind);
    } else if i == 2 {
      PresentKey(root, KeyYKalman, NumberKind);
    } else if i == 3 {
      PresentKey(root, KeyZKalman, NumberKind);
    } else if i == 4 {
      PresentKey(root, KeyAutocalibrazioneAsseX, BoolKind);
    } else if i == 5 {
      PresentKey(root, KeyAutocalibrazioneAsseY, BoolKind);
    } else if i == 6 {
      PresentKey(root, KeyAutocalibrazioneAsseZ, BoolKind);
    } else if i == 7 {
      PresentKey(root, KeyAutocalibrazioneMisuraX, BoolKind);
    } else if i == 8 {
      PresentKey(root, KeyAutocalibrazioneMisuraY, BoolKind);
    } else if i == 9 {
      PresentKey(root, KeyAutocalibrazioneMisuraZ, BoolKind);
    } else if i == 10 {
      PresentKey(root, KeyTempSonicaX, NumberKind);
    } else if i == 11 {
      PresentKey(root, KeyTempSonicaY, NumberKind);
    } else {
      PresentKey(root, KeyTempSonicaZ, NumberKind);
    }
  }

  /** The AnemometerData struct, written in place by the parsers. */
  class AnemometerRecord {
    var timestamp: uint32
    var xKalman: Float64
    var autocalibrazioneAsseX: bool
    var autocalibrazioneMisuraX: bool
    var tempSonicaX: Float64
    var yKalman: Float64
    var autocalibrazioneAsseY: bool
    var autocalibrazioneMisuraY: bool
    var tempSonicaY: Float64
    var zKalman: Float64
    var autocalibrazioneAsseZ: bool
    var autocalibrazioneMisuraZ: bool
    var tempSonicaZ: Float64

    /** The struct's current contents. */
    function Value(): AnemometerData
      reads this
    {
      AnemometerData(timestamp,
        xKalman, autocalibrazioneAsseX, autocalibrazioneMisuraX, tempSonicaX,
        yKalman, autocalibrazioneAsseY, autocalibrazioneMisuraY, tempSonicaY,
        zKalman, autocalibrazioneAsseZ, autocalibrazioneMisuraZ, tempSonicaZ)
    }

    /** Writes every field of the struct, one axis after the other. */
    method Store(d: AnemometerData)
      modifies this
      ensures Value() == d
    {
      StoreAxisX(d);
      StoreAxisY(d);
      StoreAxisZ(d);
    }

    /** Writes the timestamp and the x-axis group. */
    method StoreAxisX(d: AnemometerData)
      modifies this
      ensures Value() == old(Value()).(timestamp := d.timestamp, xKalman := d.xKalman, autocalibrazioneAsseX := d.autocalibrazioneAsseX, autocalibrazioneMisuraX := d.autocalibrazioneMisuraX, tempSonicaX := d.tempSonicaX)
    {
      timestamp := d.timestamp;
      xKalman := d.xKalman;
      autocalibrazioneAsseX := d.autocalibrazioneAsseX;
      autocalibrazioneMisuraX := d.autocalibrazioneMisuraX;
      tempSonicaX := d.tempSonicaX;
    }

    /** Writes the y-axis group. */
    method StoreAxisY(d: AnemometerData)
      modifies this
      ensures Value() == old(Value()).(yKalman := d.yKalman, autocalibrazioneAsseY := d.autocalibrazioneAsseY, autocalibrazioneMisuraY := d.autocalibrazioneMisuraY, tempSonicaY := d.tempSonicaY)
    {
      yKalman := d.yKalman;
      autocalibrazioneAsseY := d.autocalibrazioneAsseY;
      autocalibrazioneMisuraY := d.autocalibrazioneMisuraY;
      tempSonicaY := d.tempSonicaY;
    }

    /** Writes the z-axis group. */
    method StoreAxisZ(d: AnemometerData)
      modifies this
      ensures Value() == old(Value()).(zKalman := d.zKalman, autocalibrazioneAsseZ := d.autocalibrazioneAsseZ, autocalibrazioneMisuraZ := d.autocalibrazioneMisuraZ, tempSonicaZ := d.tempSonicaZ)
    {
      zKalman := d.zKalman;
      autocalibrazioneAsseZ := d.autocalibrazioneAsseZ;
      autocalibrazioneMisuraZ := d.autocalibrazioneMisuraZ;
      tempSonicaZ := d.tempSonicaZ;
    }

    /** A struct with static storage starts zero-filled. */
    constructor ()
      ensures Value() == AnemometerZero
    {
      timestamp := 0;
      xKalman, autocalibrazioneAsseX, autocalibrazioneMisuraX, tempSonicaX := Zero, false, false, Zero;
      yKalman, autocalibrazioneAsseY, autocalibrazioneMisuraY, tempSonicaY := Zero, false, false, Zero;
      zKalman, autocalibrazioneAsseZ, autocalibrazioneMisuraZ, tempSonicaZ := Zero, false, false, Zero;
    }
  }

  /** The all-zero anemometer record. */
  const AnemometerZero := AnemometerData(0,
    Zero, false, false, Zero,
    Zero, false, false, Zero,
    Zero, false, false, Zero)

  /**
   * anemometer_data_default: every measurement and flag back to zero or false.
   * The timestamp is not among the fields it assigns, so it keeps its value.
   */
  method AnemometerDataDefault(anmData: AnemometerRecord)
    modifies anmData
    ensures anmData.Value() == AnemometerZero.(timestamp := old(anmData.timestamp))
  {
    anmData.xKalman := Zero;
    anmData.yKalman := Zero;
    anmData.zKalman := Zero;

    anmData.autocalibrazioneAsseX := false;
    anmData.autocalibrazioneAsseY := false;
    anmData.autocalibrazioneAsseZ := false;

    anmData.autocalibrazioneMisuraX := false;
    anmData.autocalibrazioneMisuraY := false;
    anmData.autocalibrazioneMisuraZ := false;

    anmData.tempSonicaX := Zero;
    anmData.tempSonicaY := Zero;
    anmData.tempSonicaZ := Zero;
  }

  /**
   * parse_anemometer_data: the lookups and type tests are those of
   * DecodeAnemometer; the record is written only once all thirteen passed,
   * so a rejected message leaves it exactly as it was.
   */
  method ParseAnemometerData(root: Json, anmData: AnemometerRecord) returns (ok: bool)
    modifies anmData
    ensures ok <==> Conforms(root, AnemometerSchema)
    ensures ok ==> anmData.Value() == DecodeAnemometer(root).value
    ensures !ok ==> anmData.Value() == old(anmData.Value())
  {
    var decoded := DecodeAnemometer(root);
    if decoded.None? {
      return false;
    }
    anmData.Store(decoded.value);
    return true;
  }

  // ---------------------------------------------------------------------------
  // Particulate matter
  // ---------------------------------------------------------------------------

  /** The capacity of each unit array of the ParticulateMatterData struct, NUL included. */
  const UnitBufferSize := 8

  /** A snapshot of the ParticulateMatterData struct; each unit is the C string its array holds. */
  datatype ParticulateMatterData = ParticulateMatterData(
    timestamp: uint32,
    massDensityPm1_0: Float64, massDensityPm2_5: Float64, massDensityPm4_0: Float64, massDensityPm10: Float64,
    particleCount0_5: Float64, particleCount1_0: Float64, particleCount2_5: Float64,
    particleCount4_0: Float64, particleCount10: Float64,
    particleSize: Float64,
    massDensityUnit: string, particleCountUnit: string, particleSizeUnit: string)
  {
    /** The field that entry i of ParticulateMatterSchema describes. */
    function At(i: nat): FieldValue
      requires i < |ParticulateMatterSchema|
    {
      match i
      case 0 => Uint32Value(timestamp)
      case 1 => NumberValue(massDensityPm1_0)
      case 2 => NumberValue(massDensityPm2_5)
      case 3 => NumberValue(massDensityPm4_0)
      case 4 => NumberValue(massDensityPm10)
      case 5 => NumberValue(particleCount0_5)
      case 6 => NumberValue(particleCount1_0)
      case 7 => NumberValue(particleCount2_5)
      case 8 => NumberValue(particleCount4_0)
      case 9 => NumberValue(particleCount10)
      case 10 => NumberValue(particleSize)
      case 11 => StringValue(massDensityUnit)
      case 12 => StringValue(particleCountUnit)
      case _ => StringValue(particleSizeUnit)
    }
  }

  // The keys of an "sps" message.
  const KeySensorData := "sensor_data"
  const KeyMassDensity := "mass_density"
  const KeyParticleCount := "particle_count"
  const KeyPm0_5 := "pm0.5"
  const KeyPm1_0 := "pm1.0"
  const KeyPm2_5 := "pm2.5"
  const KeyPm4_0 := "pm4.0"
  const KeyPm10 := "pm10"
  const KeyParticleSize := "particle_size"
  const KeyMassDensityUnit := "mass_density_unit"
  const KeyParticleCountUnit := "particle_count_unit"
  const KeyParticleSizeUnit := "particle_size_unit"

  /** The fourteen fields of an "sps" message; all but the timestamp sit under "sensor_data". */
  const ParticulateMatterSchema: seq<Field> := [
    Field([KeyTimestamp], Uint32Kind),
    Field([KeySensorData, KeyMassDensity, KeyPm1_0], NumberKind),
    Field([KeySensorData, KeyMassDensity, KeyPm2_5], NumberKind),
    Field([KeySensorData, KeyMassDensity, KeyPm4_0], NumberKind),
    Field([KeySensorData, KeyMassDensity, KeyPm10], NumberKind),
    Field([KeySensorData, KeyParticleCount, KeyPm0_5], NumberKind),
    Field([KeySensorData, KeyParticleCount, KeyPm1_0], NumberKind),
    Field([KeySensorData, KeyParticleCount, KeyPm2_5], NumberKind),
    Field([KeySensorData, KeyParticleCount, KeyPm4_0], NumberKind),
    Field([KeySensorData, KeyParticleCount, KeyPm10], NumberKind),
    Field([KeySensorData, KeyParticleSize], NumberKind),
    Field([KeySensorData, KeyMassDensityUnit], StringKind),
    Field([KeySensorData, KeyParticleCountUnit], StringKind),
    Field([KeySensorData, KeyParticleSizeUnit], StringKind)
  ]

  /**
   * The checks of parse_particulate_matter_data exactly as written: None when
   * a field is missing or mistyped, otherwise the record it writes. It puts no
   * bound on the length of a unit string.
   */
  function DecodeParticulateMatterAsWritten(root: Json): (r: Option<ParticulateMatterData>)
    ensures r.Some? <==> Conforms(root, ParticulateMatterSchema)
  {
    ParticulateMatterConforms(root);
    var timestamp := GetObjectItem(root, KeyTimestamp);
    if !IsNumber(timestamp) then None else
    var sensorData := GetObjectItem(root, KeySensorData);
    if !IsObject(sensorData) then None else
    var massDensity := GetObjectItem(sensorData.value, KeyMassDensity);
    if !IsObject(massDensity) then None else
    var mdPm1_0 := GetObjectItem(massDensity.value, KeyPm1_0);
    var mdPm2_5 := GetObjectItem(massDensity.value, KeyPm2_5);
    var mdPm4_0 := GetObjectItem(massDensity.value, KeyPm4_0);
    var mdPm10 := GetObjectItem(massDensity.value, KeyPm10);
    if !IsNumber(mdPm1_0) || !IsNumber(mdPm2_5) || !IsNumber(mdPm4_0) || !IsNumber(mdPm10) then None else
    var particleCount := GetObjectItem(sensorData.value, KeyParticleCount);
    if !IsObject(particleCount) then None else
    var pcPm0_5 := GetObjectItem(particleCount.value, KeyPm0_5);
    var pcPm1_0 := GetObjectItem(particleCount.value, KeyPm1_0);
    var pcPm2_5 := GetObjectItem(particleCount.value, KeyPm2_5);
    var pcPm4_0 := GetObjectItem(particleCount.value, KeyPm4_0);
    var pcPm10 := GetObjectItem(particleCount.value, KeyPm10);
    if !IsNumber(pcPm0_5) || !IsNumber(pcPm1_0) || !IsNumber(pcPm2_5) || !IsNumber(pcPm4_0) || !IsNumber(pcPm10) then None else
    var particleSize := GetObjectItem(sensorData.value, KeyParticleSize);
    var massDensityUnit := GetObjectItem(sensorData.value, KeyMassDensityUnit);
    var particleCountUnit := GetObjectItem(sensorData.value, KeyParticleCountUnit);
    var particleSizeUnit := GetObjectItem(sensorData.value, KeyParticleSizeUnit);
    if !IsNumber(particleSize) then None
    else if !IsString(massDensityUnit) then None
    else if !IsString(particleCountUnit) then None
    else if !IsString(particleSizeUnit) then None
    else Some(ParticulateMatterData(
      ToUint32(timestamp.value.valueint),
      mdPm1_0.value.valuedouble, mdPm2_5.value.valuedouble, mdPm4_0.value.valuedouble, mdPm10.value.valuedouble,
      pcPm0_5.value.valuedouble, pcPm1_0.value.valuedouble, pcPm2_5.value.valuedouble,
      pcPm4_0.value.valuedouble, pcPm10.value.valuedouble,
      particleSize.value.valuedouble,
      CChars(massDensityUnit.value.valuestring),
      CChars(particleCountUnit.value.valuestring),
      CChars(particleSizeUnit.value.valuestring)))
  }

  /** The entries of the particulate-matter table, one by one. */
  lemma ParticulateMatterEntries()
    ensures ParticulateMatterSchema[0] == Field([KeyTimestamp], Uint32Kind)
    ensures ParticulateMatterSchema[1] == Field([KeySensorData, KeyMassDensity, KeyPm1_0], NumberKind)
    ensures ParticulateMatterSchema[2] == Field([KeySensorData, KeyMassDensity, KeyPm2_5], NumberKind)
    ensures ParticulateMatterSchema[3] == Field([KeySensorData, KeyMassDensity, KeyPm4_0], NumberKind)
    ensures ParticulateMatterSchema[4] == Field([KeySensorData, KeyMassDensity, KeyPm10], NumberKind)
    ensures ParticulateMatterSchema[5] == Field([KeySensorData, KeyParticleCount, KeyPm0_5], NumberKind)
    ensures ParticulateMatterSchema[6] == Field([KeySensorData, KeyParticleCount, KeyPm1_0], NumberKind)
    ensures ParticulateMatterSchema[7] == Field([KeySensorData, KeyParticleCount, KeyPm2_5], NumberKind)
    ensures ParticulateMatterSchema[8] == Field([KeySensorData, KeyParticleCount, KeyPm4_0], NumberKind)
    ensures ParticulateMatterSchema[9] == Field([KeySensorData, KeyParticleCount, KeyPm10], NumberKind)
    ensures ParticulateMatterSchema[10] == Field([KeySensorData, KeyParticleSize], NumberKind)
    ensures ParticulateMatterSchema[11] == Field([KeySensorData, KeyMassDensityUnit], StringKind)
    ensures ParticulateMatterSchema[12] == Field([KeySensorData, KeyParticleCountUnit], StringKind)
    ensures ParticulateMatterSchema[13] == Field([KeySensorData, KeyParticleSizeUnit], StringKind)
  {
  }

  /** The checks of parse_particulate_matter_data, in its order. */
  predicate ParticulateMatterGuards(root: Json) {
    var sensorData := GetObjectItem(root, KeySensorData);
    && IsNumber(GetObjectItem(root, KeyTimestamp))
    && IsObject(sensorData)
    && var massDensity := GetObjectItem(sensorData.value, KeyMassDensity);
    && IsObject(massDensity)
    && IsNumber(GetObjectItem(massDensity.value, KeyPm1_0))
    && IsNumber(GetObjectItem(massDensity.value, KeyPm2_5))
    && IsNumber(GetObjectItem(massDensity.value, KeyPm4_0))
    && IsNumber(GetObjectItem(massDensity.value, KeyPm10))
    && var particleCount := GetObjectItem(sensorData.value, KeyParticleCount);
    && IsObject(particleCount)
    && IsNumber(GetObjectItem(particleCount.value, KeyPm0_5))
    && IsNumber(GetObjectItem(particleCount.value, KeyPm1_0))
    && IsNumber(GetObjectItem(particleCount.value, KeyPm2_5))
    && IsNumber(GetObjectItem(particleCount.value, KeyPm4_0))
    && IsNumber(GetObjectItem(particleCount.value, KeyPm10))
    && IsNumber(GetObjectItem(sensorData.value, KeyParticleSize))
    && IsString(GetObjectItem(sensorData.value, KeyMassDensityUnit))
    && IsString(GetObjectItem(sensorData.value, KeyParticleCountUnit))
    && IsString(GetObjectItem(sensorData.value, KeyParticleSizeUnit))
  }

  /** Conformance to the particulate-matter table is exactly the parser's chain of checks. */
  lemma ParticulateMatterConforms(root: Json)
    ensures Conforms(root, ParticulateMatterSchema) <==> ParticulateMatterGuards(root)
  {
    if Conforms(root, ParticulateMatterSchema) {
      ConformsParticulateMatterGuards(root);
    }
    if ParticulateMatterGuards(root) {
      ParticulateMatterGuardsConform(root);
    }
  }

  lemma ConformsParticulateMatterGuards(root: Json)
    requires Conforms(root, ParticulateMatterSchema)
    ensures ParticulateMatterGuards(root)
  {
    ParticulateMatterEntries();
    PresentKey(root, KeyTimestamp, Uint32Kind);
    PresentKey3(root, KeySensorData, KeyMassDensity, KeyPm1_0, NumberKind);
    PresentKey3(root, KeySensorData, KeyMassDensity, KeyPm2_5, NumberKind);
    PresentKey3(root, KeySensorData, KeyMassDensity, KeyPm4_0, NumberKind);
    PresentKey3(root, KeySensorData, KeyMassDensity, KeyPm10, NumberKind);
    PresentKey3(root, KeySensorData, KeyParticleCount, KeyPm0_5, NumberKind);
    PresentKey3(root, KeySensorData, KeyParticleCount, KeyPm1_0, NumberKind);
    PresentKey3(root, KeySensorData, KeyParticleCount, KeyPm2_5, NumberKind);
    PresentKey3(root, KeySensorData, KeyParticleCount, KeyPm4_0, NumberKind);
    PresentKey3(root, KeySensorData, KeyParticleCount, KeyPm10, NumberKind);
    PresentKey2(root, KeySensorData, KeyParticleSize, NumberKind);
    PresentKey2(root, KeySensorData, KeyMassDensityUnit, StringKind);
    PresentKey2(root, KeySensorData, KeyParticleCountUnit, StringKind);
    PresentKey2(root, KeySensorData, KeyParticleSizeUnit, StringKind);
  }

  lemma ParticulateMatterGuardsConform(root: Json)
    requires ParticulateMatterGuards(root)
    ensures Conforms(root, ParticulateMatterSchema)
  {
    ParticulateMatterEntries();
    PresentKey(root, KeyTimestamp, Uint32Kind);
    MassDensityGuardsConform(root);
    ParticleCountGuardsConform(root);
    SensorGuardsConform(root);
    forall i | 0 <= i < |ParticulateMatterSchema|
      ensures Present(root, ParticulateMatterSchema[i])
    {
      if i == 0 {
      } else if i < 5 {
      } else if i < 10 {
      } else {
      }
    }
  }

  lemma MassDensityGuardsConform(root: Json)
    requires ParticulateMatterGuards(root)
    ensures forall i :: 1 <= i < 5 ==> Present(root, ParticulateMatterSchema[i])
  {
    ParticulateMatterEntries();
    forall i | 1 <= i < 5
      ensures Present(root, ParticulateMatterSchema[i])
    {
      if i == 1 {
        PresentKey3(root, KeySensorData, KeyMassDensity, KeyPm1_0, NumberKind);
      } else if i == 2 {
        PresentKey3(root, KeySensorData, KeyMassDensity, KeyPm2_5, NumberKind);
      } else if i == 3 {
        PresentKey3(root, KeySensorData, KeyMassDensity, KeyPm4_0, NumberKind);
      } else {
        PresentKey3(root, KeySensorData, KeyMassDensity, KeyPm10, NumberKind);
      }
    }
  }

  lemma ParticleCountGuardsConform(root: Json)
    requires ParticulateMatterGuards(root)
    ensures forall i :: 5 <= i < 10 ==> Present(root, ParticulateMatterSchema[i])
  {
    ParticulateMatterEntries();
    forall i | 5 <= i < 10
      ensures Present(root, ParticulateMatterSchema[i])
    {
      if i == 5 {
        PresentKey3(root, KeySensorData, KeyParticleCount, KeyPm0_5, NumberKind);
      } else if i == 6 {
        PresentKey3(root, KeySensorData, KeyParticleCount, KeyPm1_0, NumberKind);
      } else if i == 7 {
        PresentKey3(root, KeySensorData, KeyParticleCount, KeyPm2_5, NumberKind);
      } else if i == 8 {
        PresentKey3(root, KeySensorData, KeyParticleCount, KeyPm4_0, NumberKind);
      } else {
        PresentKey3(root, KeySensorData, KeyParticleCount, KeyPm10, NumberKind);
      }
    }
  }

  lemma SensorGuardsConform(root: Json)
    requires ParticulateMatterGuards(root)
    ensures forall i :: 10 <= i < 14 ==> Present(root, ParticulateMatterSchema[i])
  {
    ParticulateMatterEntries();
    forall i | 10 <= i < 14
      ensures Present(root, ParticulateMatterSchema[i])
    {
      if i == 10 {
        PresentKey2(root, KeySensorData, KeyParticleSize, NumberKind);
      } else if i == 11 {
        PresentKey2(root, KeySensorData, KeyMassDensityUnit, StringKind);
      } else if i == 12 {
        PresentKey2(root, KeySensorData, KeyParticleCountUnit, StringKind);
      } else {
        PresentKey2(root, KeySensorData, KeyParticleSizeUnit, StringKind);
      }
    }
  }

  /** A decoded record holds, field by field, the value the table extracts from the message. */
  lemma DecodeParticulateMatterFields(root: Json)
    requires DecodeParticulateMatterAsWritten(root).Some?
    ensures forall i :: 0 <= i < |ParticulateMatterSchema| ==>
      DecodeParticulateMatterAsWritten(root).value.At(i) == Extract(root, ParticulateMatterSchema[i])
  {
    ParticulateMatterEntries();
    PresentKey(root, KeyTimestamp, Uint32Kind);
    PresentKey3(root, KeySensorData, KeyMassDensity, KeyPm1_0, NumberKind);
    PresentKey3(root, KeySensorData, KeyMassDensity, KeyPm2_5, NumberKind);
    PresentKey3(root, KeySensorData, KeyMassDensity, KeyPm4_0, NumberKind);
    PresentKey3(root, KeySensorData, KeyMassDensity, KeyPm10, NumberKind);
    PresentKey3(root, KeySensorData, KeyParticleCount, KeyPm0_5, NumberKind);
    PresentKey3(root, KeySensorData, KeyParticleCount, KeyPm1_0, NumberKind);
    PresentKey3(root, KeySensorData, KeyParticleCount, KeyPm2_5, NumberKind);
    PresentKey3(root, KeySensorData, KeyParticleCount, KeyPm4_0, NumberKind);
    PresentKey3(root, KeySensorData, KeyParticleCount, KeyPm10, NumberKind);
    PresentKey2(root, KeySensorData, KeyParticleSize, NumberKind);
    PresentKey2(root, KeySensorData, KeyMassDensityUnit, StringKind);
    PresentKey2(root, KeySensorData, KeyParticleCountUnit, StringKind);
    PresentKey2(root, KeySensorData, KeyParticleSizeUnit, StringKind);
  }

  /** A C string that fits, with its NUL, in one of the struct's unit arrays. */
  predicate FitsUnitBuffer(u: string) {
    '\0' !in u && Utf8Length(u) < UnitBufferSize
  }

  predicate UnitsFit(d: ParticulateMatterData) {
    FitsUnitBuffer(d.massDensityUnit) && FitsUnitBuffer(d.particleCountUnit) && FitsUnitBuffer(d.particleSizeUnit)
  }

  /**
   * What parse_particulate_matter_data evidently means to accept: the checks
   * as written, and in addition every unit short enough for strcpy to copy it
   * into its char[8] array. The record it yields is the one the as-written
   * checks yield.
   */
  function DecodeParticulateMatter(root: Json): (r: Option<ParticulateMatterData>)
    ensures r.Some? <==> DecodeParticulateMatterAsWritten(root).Some? && UnitsFit(DecodeParticulateMatterAsWritten(root).value)
    ensures r.Some? ==> r == DecodeParticulateMatterAsWritten(root)
  {
    match DecodeParticulateMatterAsWritten(root)
    case None => None
    case Some(d) => if UnitsFit(d) then Some(d) else None
  }

  /**
   * The units are counted in C bytes: "\u00B5g/m\u00B3x" is six characters, but
   * its micro and cube signs take two bytes each in UTF-8, so with its NUL it
   * needs nine bytes and does not fit char[8].
   */
  const MicroUnit := "\U{00B5}g/m\U{00B3}x"

  lemma MultiByteUnitDoesNotFit()
    ensures |MicroUnit| + 1 < UnitBufferSize
    ensures !FitsUnitBuffer(MicroUnit)
  {
    assert Utf8Length(MicroUnit) == 8;
  }

  // An "sps" message whose mass-density unit is nine characters long.
  const LongUnit := "ug/m3/pm1"
  const LongUnitMassDensity: Json := Obj([
    (KeyPm1_0, Number(Zero, 0)), (KeyPm2_5, Number(Zero, 0)), (KeyPm4_0, Number(Zero, 0)), (KeyPm10, Number(Zero, 0))])
  const LongUnitParticleCount: Json := Obj([
    (KeyPm0_5, Number(Zero, 0)), (KeyPm1_0, Number(Zero, 0)), (KeyPm2_5, Number(Zero, 0)),
    (KeyPm4_0, Number(Zero, 0)), (KeyPm10, Number(Zero, 0))])
  const LongUnitSensorData: Json := Obj([
    (KeyMassDensity, LongUnitMassDensity),
    (KeyParticleCount, LongUnitParticleCount),
    (KeyParticleSize, Number(Zero, 0)),
    (KeyMassDensityUnit, Str("ug/m3/pm1")),
    (KeyParticleCountUnit, Str("#/cm3")),
    (KeyParticleSizeUnit, Str("um"))])
  const LongUnitMessage: Json := Obj([(KeyTimestamp, Number(Zero, 0)), (KeySensorData, LongUnitSensorData)])

  /**
   * The checks as written accept a unit that strcpy cannot fit in char[8]: the
   * copy of LongUnitMessage's mass-density unit needs ten bytes. The corrected
   * decoder rejects that message.
   */
  lemma LongUnitOverflowsAsWritten()
    ensures DecodeParticulateMatterAsWritten(LongUnitMessage).Some?
    ensures |DecodeParticulateMatterAsWritten(LongUnitMessage).value.massDensityUnit| + 1 > UnitBufferSize
    ensures DecodeParticulateMatter(LongUnitMessage).None?
  {
    LongUnitDecoded();
    assert |CChars(LongUnit)| == 9;
  }

  lemma LongUnitDecoded()
    ensures DecodeParticulateMatterAsWritten(LongUnitMessage) == Some(ParticulateMatterData(0,
      Zero, Zero, Zero, Zero, Zero, Zero, Zero, Zero, Zero, Zero,
      CChars(LongUnit), CChars("#/cm3"), CChars("um")))
  {
    GetObjectItemAt(LongUnitMessage, KeyTimestamp, 0);
    GetObjectItemAt(LongUnitMessage, KeySensorData, 1);
    LongUnitSensorDataLookups();
    LongUnitMassDensityLookups();
    LongUnitParticleCountLookups();
  }

  lemma LongUnitSensorDataLookups()
    ensures GetObjectItem(LongUnitSensorData, KeyMassDensity) == Some(LongUnitMassDensity)
    ensures GetObjectItem(LongUnitSensorData, KeyParticleCount) == Some(LongUnitParticleCount)
    ensures GetObjectItem(LongUnitSensorData, KeyParticleSize) == Some(Number(Zero, 0))
    ensures GetObjectItem(LongUnitSensorData, KeyMassDensityUnit) == Some(Str(LongUnit))
    ensures GetObjectItem(LongUnitSensorData, KeyParticleCountUnit) == Some(Str("#/cm3"))
    ensures GetObjectItem(LongUnitSensorData, KeyParticleSizeUnit) == Some(Str("um"))
  {
    GetObjectItemAt(LongUnitSensorData, KeyMassDensity, 0);
    GetObjectItemAt(LongUnitSensorData, KeyParticleCount, 1);
    GetObjectItemAt(LongUnitSensorData, KeyParticleSize, 2);
    GetObjectItemAt(LongUnitSensorData, KeyMassDensityUnit, 3);
    GetObjectItemAt(LongUnitSensorData, KeyParticleCountUnit, 4);
    GetObjectItemAt(LongUnitSensorData, KeyParticleSizeUnit, 5);
  }

  lemma LongUnitMassDensityLookups()
    ensures GetObjectItem(LongUnitMassDensity, KeyPm1_0) == Some(Number(Zero, 0))
    ensures GetObjectItem(LongUnitMassDensity, KeyPm2_5) == Some(Number(Zero, 0))
    ensures GetObjectItem(LongUnitMassDensity, KeyPm4_0) == Some(Number(Zero, 0))
    ensures GetObjectItem(LongUnitMassDensity, KeyPm10) == Some(Number(Zero, 0))
  {
    KeysDifferAt(KeyPm1_0, KeyPm2_5, 2);
    KeysDifferAt(KeyPm1_0, KeyPm4_0, 2);
    KeysDifferAt(KeyPm2_5, KeyPm4_0, 2);
    GetObjectItemAt(LongUnitMassDensity, KeyPm1_0, 0);
    GetObjectItemAt(LongUnitMassDensity, KeyPm2_5, 1);
    GetObjectItemAt(LongUnitMassDensity, KeyPm4_0, 2);
    GetObjectItemAt(LongUnitMassDensity, KeyPm10, 3);
  }

  lemma LongUnitParticleCountLookups()
    ensures GetObjectItem(LongUnitParticleCount, KeyPm0_5) == Some(Number(Zero, 0))
    ensures GetObjectItem(LongUnitParticleCount, KeyPm1_0) == Some(Number(Zero, 0))
    ensures GetObjectItem(LongUnitParticleCount, KeyPm2_5) == Some(Number(Zero, 0))
    ensures GetObjectItem(LongUnitParticleCount, KeyPm4_0) == Some(Number(Zero, 0))
    ensures GetObjectItem(LongUnitParticleCount, KeyPm10) == Some(Number(Zero, 0))
  {
    KeysDifferAt(KeyPm0_5, KeyPm1_0, 2);
    KeysDifferAt(KeyPm0_5, KeyPm2_5, 2);
    KeysDifferAt(KeyPm1_0, KeyPm2_5, 2);
    KeysDifferAt(KeyPm0_5, KeyPm4_0, 2);
    KeysDifferAt(KeyPm1_0, KeyPm4_0, 2);
    KeysDifferAt(KeyPm2_5, KeyPm4_0, 2);
    GetObjectItemAt(LongUnitParticleCount, KeyPm0_5, 0);
    GetObjectItemAt(LongUnitParticleCount, KeyPm1_0, 1);
    GetObjectItemAt(LongUnitParticleCount, KeyPm2_5, 2);
    GetObjectItemAt(LongUnitParticleCount, KeyPm4_0, 3);
    GetObjectItemAt(LongUnitParticleCount, KeyPm10, 4);
  }

  /** The all-zero particulate-matter record, with three empty units. */
  const ParticulateMatterZero := ParticulateMatterData(0,
    Zero, Zero, Zero, Zero,
    Zero, Zero, Zero, Zero, Zero,
    Zero,
    "", "", "")

  /**
   * The ParticulateMatterData struct. Its three units are char[8] arrays
   * inside the struct, so they are fixed for the struct's lifetime and never
   * shared with another struct or with each other.
   */
  class ParticulateMatterRecord {
    var timestamp: uint32
    var massDensityPm1_0: Float64
    var massDensityPm2_5: Float64
    var massDensityPm4_0: Float64
    var massDensityPm10: Float64
    var particleCount0_5: Float64
    var particleCount1_0: Float64
    var particleCount2_5: Float64
    var particleCount4_0: Float64
    var particleCount10: Float64
    var particleSize: Float64
    const massDensityUnit: array<char>
    const particleCountUnit: array<char>
    const particleSizeUnit: array<char>

    /** Each unit array has room for UnitBufferSize chars and holds a NUL, so it is a C string. */
    ghost predicate Valid()
      reads massDensityUnit, particleCountUnit, particleSizeUnit
    {
      && massDensityUnit.Length == UnitBufferSize
      && particleCountUnit.Length == UnitBufferSize
      && particleSizeUnit.Length == UnitBufferSize
      && massDensityUnit != particleCountUnit
      && massDensityUnit != particleSizeUnit
      && particleCountUnit != particleSizeUnit
      && '\0' in massDensityUnit[..]
      && '\0' in particleCountUnit[..]
      && '\0' in particleSizeUnit[..]
    }

    /** The struct's current contents; a unit reads as the C string in its array. */
    function Value(): ParticulateMatterData
      reads this, massDensityUnit, particleCountUnit, particleSizeUnit
    {
      ParticulateMatterData(timestamp,
        massDensityPm1_0, massDensityPm2_5, massDensityPm4_0, massDensityPm10,
        particleCount0_5, particleCount1_0, particleCount2_5, particleCount4_0, particleCount10,
        particleSize,
        CChars(massDensityUnit[..]), CChars(particleCountUnit[..]), CChars(particleSizeUnit[..]))
    }

    /** A struct with static storage starts zero-filled. */
    constructor ()
      ensures Valid()
      ensures fresh(massDensityUnit) && fresh(particleCountUnit) && fresh(particleSizeUnit)
      ensures Value() == ParticulateMatterZero
    {
      timestamp := 0;
      massDensityPm1_0, massDensityPm2_5, massDensityPm4_0, massDensityPm10 := Zero, Zero, Zero, Zero;
      particleCount0_5, particleCount1_0, particleCount2_5 := Zero, Zero, Zero;
      particleCount4_0, particleCount10 := Zero, Zero;
      particleSize := Zero;
      massDensityUnit := new char[UnitBufferSize](_ => '\0');
      particleCountUnit := new char[UnitBufferSize](_ => '\0');
      particleSizeUnit := new char[UnitBufferSize](_ => '\0');
      new;
      assert massDensityUnit[..][0] == '\0';
      assert particleCountUnit[..][0] == '\0';
      assert particleSizeUnit[..][0] == '\0';
    }

    /** Writes every numeric field of the struct; the unit arrays are left alone. */
    method StoreMeasurements(d: ParticulateMatterData)
      modifies this
      ensures timestamp == d.timestamp && particleSize == d.particleSize
      ensures massDensityPm1_0 == d.massDensityPm1_0 && massDensityPm2_5 == d.massDensityPm2_5
      ensures massDensityPm4_0 == d.massDensityPm4_0 && massDensityPm10 == d.massDensityPm10
      ensures particleCount0_5 == d.particleCount0_5 && particleCount1_0 == d.particleCount1_0
      ensures particleCount2_5 == d.particleCount2_5 && particleCount4_0 == d.particleCount4_0
      ensures particleCount10 == d.particleCount10
    {
      timestamp, particleSize := d.timestamp, d.particleSize;
      massDensityPm1_0, massDensityPm2_5, massDensityPm4_0, massDensityPm10 :=
        d.massDensityPm1_0, d.massDensityPm2_5, d.massDensityPm4_0, d.massDensityPm10;
      particleCount0_5, particleCount1_0, particleCount2_5, particleCount4_0, particleCount10 :=
        d.particleCount0_5, d.particleCount1_0, d.particleCount2_5, d.particleCount4_0, d.particleCount10;
    }
  }

  /**
   * particulate_matter_data_default as written: it assigns mass_density_pm_1_0
   * twice and mass_density_pm_4_0 never, so that field keeps its old value.
   */
  function ParticulateMatterDefaultAsWritten(d: ParticulateMatterData): ParticulateMatterData {
    d.(timestamp := 0,
       massDensityPm1_0 := Zero, massDensityPm2_5 := Zero, massDensityPm10 := Zero,
       particleCount0_5 := Zero, particleCount1_0 := Zero, particleCount2_5 := Zero,
       particleCount4_0 := Zero, particleCount10 := Zero,
       particleSize := Zero,
       massDensityUnit := "", particleSizeUnit := "", particleCountUnit := "")
  }

  /** The default as written reaches the zero record only when pm4.0 already was zero. */
  lemma DefaultAsWrittenKeepsPm4_0(d: ParticulateMatterData)
    ensures ParticulateMatterDefaultAsWritten(d).massDensityPm4_0 == d.massDensityPm4_0
    ensures ParticulateMatterDefaultAsWritten(d) == ParticulateMatterZero <==> d.massDensityPm4_0 == Zero
  {
  }

  /**
   * particulate_matter_data_default with its evident intent: every numeric
   * field, pm4.0 included, back to zero and every unit emptied.
   */
  method ParticulateMatterDataDefault(pmData: ParticulateMatterRecord)
    requires pmData.Valid()
    modifies pmData, pmData.massDensityUnit, pmData.particleCountUnit, pmData.particleSizeUnit
    ensures pmData.Valid()
    ensures pmData.Value() == ParticulateMatterZero
  {
    pmData.StoreMeasurements(ParticulateMatterZero);
    StrCpy(pmData.massDensityUnit, "");
    StrCpy(pmData.particleSizeUnit, "");
    StrCpy(pmData.particleCountUnit, "");
    assert pmData.massDensityUnit[..][0] == '\0';
    assert pmData.particleCountUnit[..][0] == '\0';
    assert pmData.particleSizeUnit[..][0] == '\0';
  }

  /**
   * parse_particulate_matter_data, with the unit length check it lacks: the
   * checks of DecodeParticulateMatter first, then the writes. The writes go
   * to the global struct `particulateMatterData`, never to the `spsData`
   * parameter, which the function does not read.
   */
  method ParseParticulateMatterData(root: Json, spsData: ParticulateMatterRecord,
                                    particulateMatterData: ParticulateMatterRecord) returns (ok: bool)
    requires particulateMatterData.Valid()
    modifies particulateMatterData, particulateMatterData.massDensityUnit,
             particulateMatterData.particleCountUnit, particulateMatterData.particleSizeUnit
    ensures particulateMatterData.Valid()
    ensures ok <==> DecodeParticulateMatter(root).Some?
    ensures ok ==> particulateMatterData.Value() == DecodeParticulateMatter(root).value
    ensures !ok ==> particulateMatterData.Value() == old(particulateMatterData.Value())
  {
    var decoded := DecodeParticulateMatter(root);
    if decoded.None? {
      return false;
    }
    var d := decoded.value;
    particulateMatterData.StoreMeasurements(d);
    TakeUntilNoTerminator(d.massDensityUnit, '\0');
    TakeUntilNoTerminator(d.particleCountUnit, '\0');
    TakeUntilNoTerminator(d.particleSizeUnit, '\0');
    StrCpy(particulateMatterData.massDensityUnit, d.massDensityUnit);
    StrCpy(particulateMatterData.particleCountUnit, d.particleCountUnit);
    StrCpy(particulateMatterData.particleSizeUnit, d.particleSizeUnit);
    assert particulateMatterData.massDensityUnit[..][|d.massDensityUnit|] == '\0';
    assert particulateMatterData.particleCountUnit[..][|d.particleCountUnit|] == '\0';
    assert particulateMatterData.particleSizeUnit[..][|d.particleSizeUnit|] == '\0';
    return true;
  }

  // ---------------------------------------------------------------------------
  // Topic router
  // ---------------------------------------------------------------------------

  datatype ParseReturnCode = PrcParsingError | PrcUpdatedAnemometer | PrcUpdateParticulateMatter

  /**
   * The code parse_data returns: an update code when the topic names a sensor
   * and that sensor's parser accepts the message, PRC_PARSING_ERROR otherwise.
   */
  function ParseDataResult(json: Json): (r: ParseReturnCode)
    ensures r == PrcUpdatedAnemometer <==> TopicIs(json, TopicAnemometer) && Conforms(json, AnemometerSchema)
    ensures r == PrcUpdateParticulateMatter <==>
      TopicIs(json, TopicParticulateMatter) && DecodeParticulateMatter(json).Some?
  {
    TopicNames();
    var topic := GetObjectItem(json, KeyTopic);
    if !IsString(topic) then PrcParsingError
    else if StrEquals(topic.value.valuestring, TopicAnemometer) && Conforms(json, AnemometerSchema) then
      PrcUpdatedAnemometer
    else if StrEquals(topic.value.valuestring, TopicParticulateMatter) && DecodeParticulateMatter(json).Some? then
      PrcUpdateParticulateMatter
    else
      PrcParsingError
  }

  /**
   * A missing or non-string topic, the "type" command topic and any topic
   * other than "anm" and "sps" all yield PRC_PARSING_ERROR.
   */
  lemma ParseDataErrors(json: Json)
    ensures !IsString(GetObjectItem(json, KeyTopic)) ==> ParseDataResult(json) == PrcParsingError
    ensures TopicIs(json, TopicCommand) ==> ParseDataResult(json) == PrcParsingError
    ensures !TopicIs(json, TopicAnemometer) && !TopicIs(json, TopicParticulateMatter) ==>
      ParseDataResult(json) == PrcParsingError
  {
    TopicNames();
  }

  /**
   * parse_data: routes the message by its topic to one parser. Only the record
   * of the sensor the topic names can change, and only when its parser
   * accepts the message. The particulate-matter parser is handed `pmData` but
   * writes `particulateMatterData`.
   */
  method ParseData(json: Json, anmData: AnemometerRecord, pmData: ParticulateMatterRecord,
                   particulateMatterData: ParticulateMatterRecord) returns (code: ParseReturnCode)
    requires particulateMatterData.Valid()
    modifies anmData, particulateMatterData, particulateMatterData.massDensityUnit,
             particulateMatterData.particleCountUnit, particulateMatterData.particleSizeUnit
    ensures particulateMatterData.Valid()
    ensures code == ParseDataResult(json)
    ensures anmData.Value() ==
      if code == PrcUpdatedAnemometer then DecodeAnemometer(json).value else old(anmData.Value())
    ensures particulateMatterData.Value() ==
      if code == PrcUpdateParticulateMatter then DecodeParticulateMatter(json).value
      else old(particulateMatterData.Value())
  {
    var topic := GetObjectItem(json, KeyTopic);
    if !IsString(topic) {
      return PrcParsingError;
    }
    if StrEquals(topic.value.valuestring, TopicAnemometer) {
      var ok := ParseAnemometerData(json, anmData);
      if ok {
        return PrcUpdatedAnemometer;
      }
    }
    if StrEquals(topic.value.valuestring, TopicParticulateMatter) {
      var ok := ParseParticulateMatterData(json, pmData, particulateMatterData);
      if ok {
        return PrcUpdateParticulateMatter;
      }
    }
    return PrcParsingError;
  }

  // ---------------------------------------------------------------------------
  // The log line at the head of parse_data
  // ---------------------------------------------------------------------------

  /** The number of messages in `printed` whose cJSON_Print succeeded. */
  function PrintedCount(printed: seq<Option<seq<byte>>>): nat {
    if printed == [] then 0
    else PrintedCount(printed[..|printed| - 1]) + (if printed[|printed| - 1].Some? then 1 else 0)
  }

  /** Every address still live was handed out before `next`. */
  predicate Fresh(h: UartUtils.Allocations) {
    forall p :: p in h.live ==> p < h.next
  }

  /**
   * The log line as written: cJSON_Print allocates the printed tree, or
   * returns NULL, and the string is handed to ESP_LOGI and never freed.
   */
  function LogAsWritten(h: UartUtils.Allocations, printed: Option<seq<byte>>): UartUtils.Allocations {
    if printed.Some? then UartUtils.Allocate(h, printed.value) else h
  }

  /** The log line as evidently intended: the printed string is freed once logged. */
  function Log(h: UartUtils.Allocations, printed: Option<seq<byte>>): UartUtils.Allocations {
    if printed.Some? then UartUtils.Release(UartUtils.Allocate(h, printed.value), h.next) else h
  }

  /** The heap after parse_data has logged each message of a stream, as written. */
  function LogAllAsWritten(h: UartUtils.Allocations, printed: seq<Option<seq<byte>>>): UartUtils.Allocations {
    if printed == [] then h
    else LogAsWritten(LogAllAsWritten(h, printed[..|printed| - 1]), printed[|printed| - 1])
  }

  /** The same with the printed string freed after each log line. */
  function LogAll(h: UartUtils.Allocations, printed: seq<Option<seq<byte>>>): UartUtils.Allocations {
    if printed == [] then h
    else Log(LogAll(h, printed[..|printed| - 1]), printed[|printed| - 1])
  }

  /**
   * As written, every message whose printing succeeds leaves one more string
   * live on the heap, and nothing is ever freed: the heap leaks one printed
   * tree per message.
   */
  lemma {:induction false} LogLeaksAsWritten(h: UartUtils.Allocations, printed: seq<Option<seq<byte>>>)
    requires Fresh(h)
    ensures Fresh(LogAllAsWritten(h, printed))
    ensures |LogAllAsWritten(h, printed).live| == |h.live| + PrintedCount(printed)
    ensures LogAllAsWritten(h, printed).freed == h.freed
  {
    if printed != [] {
      var init := printed[..|printed| - 1];
      LogLeaksAsWritten(h, init);
      var g := LogAllAsWritten(h, init);
      assert g.next !in g.live;
    }
  }

  /**
   * With the printed string freed after logging, the live strings are the
   * same after any stream of messages, and one string is freed per message
   * whose printing succeeded.
   */
  lemma {:induction false} LogFreesPrinted(h: UartUtils.Allocations, printed: seq<Option<seq<byte>>>)
    requires Fresh(h)
    ensures Fresh(LogAll(h, printed))
    ensures LogAll(h, printed).live == h.live
    ensures |LogAll(h, printed).freed| == |h.freed| + PrintedCount(printed)
  {
    if printed != [] {
      var init := printed[..|printed| - 1];
      LogFreesPrinted(h, init);
      var g := LogAll(h, init);
      assert g.next !in g.live;
    }
  }

  /** What the display is asked to show after one message. */
  datatype DisplayUpdate =
    | ShowAnemometer(anm: AnemometerData)
    | ShowParticulateMatter(pm: ParticulateMatterData)
    | NoUpdate

  /** The record on_json_received hands to the display for `json`. */
  function Shown(json: Json): DisplayUpdate {
    match ParseDataResult(json)
    case PrcUpdatedAnemometer => ShowAnemometer(DecodeAnemometer(json).value)
    case PrcUpdateParticulateMatter => ShowParticulateMatter(DecodeParticulateMatter(json).value)
    case PrcParsingError => NoUpdate
  }

  /** The anemometer record after `json` has been routed: replaced by an accepted "anm" message, kept otherwise. */
  function AnemometerAfter(current: AnemometerData, json: Json): AnemometerData {
    if ParseDataResult(json) == PrcUpdatedAnemometer then DecodeAnemometer(json).value else current
  }

  /** The particulate-matter record after `json` has been routed: replaced by an accepted "sps" message, kept otherwise. */
  function ParticulateMatterAfter(current: ParticulateMatterData, json: Json): ParticulateMatterData {
    if ParseDataResult(json) == PrcUpdateParticulateMatter then DecodeParticulateMatter(json).value else current
  }

  /**
   * The display is handed exactly the record the message left in place, and a
   * message that shows nothing leaves both records as they were.
   */
  lemma ShownIsStored(anm: AnemometerData, pm: ParticulateMatterData, json: Json)
    ensures Shown(json).ShowAnemometer? ==>
      Shown(json).anm == AnemometerAfter(anm, json) && ParticulateMatterAfter(pm, json) == pm
    ensures Shown(json).ShowParticulateMatter? ==>
      Shown(json).pm == ParticulateMatterAfter(pm, json) && AnemometerAfter(anm, json) == anm
    ensures Shown(json).NoUpdate? <==> ParseDataResult(json) == PrcParsingError
    ensures Shown(json).NoUpdate? ==> AnemometerAfter(anm, json) == anm && ParticulateMatterAfter(pm, json) == pm
  {
  }

  /**
   * on_json_received: parses into the two global records and hands the one
   * that changed to the display; a parsing error changes nothing and shows
   * nothing.
   */
  method OnJsonReceived(json: Json, anemometerData: AnemometerRecord,
                        particulateMatterData: ParticulateMatterRecord) returns (shown: DisplayUpdate)
    requires particulateMatterData.Valid()
    modifies anemometerData, particulateMatterData, particulateMatterData.massDensityUnit,
             particulateMatterData.particleCountUnit, particulateMatterData.particleSizeUnit
    ensures particulateMatterData.Valid()
    ensures shown == Shown(json)
    ensures anemometerData.Value() == AnemometerAfter(old(anemometerData.Value()), json)
    ensures particulateMatterData.Value() == ParticulateMatterAfter(old(particulateMatterData.Value()), json)
  {
    var code := ParseData(json, anemometerData, particulateMatterData, particulateMatterData);
    match code
    case PrcUpdatedAnemometer =>
      shown := ShowAnemometer(anemometerData.Value());
    case PrcUpdateParticulateMatter =>
      shown := ShowParticulateMatter(particulateMatterData.Value());
    case PrcParsingError =>
      shown := NoUpdate;
  }
}
