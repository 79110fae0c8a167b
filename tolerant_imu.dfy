/**
 * parse_imu_data and imu_data_default of the firmware variant in
 * fw_screen/main/data.c. An "imu" message carries a timestamp and a
 * `sensor_data` array whose elements each name a device in `dev` and carry a
 * `unit` and the components `x`, `y`, `z`. The ImuData header is not part of
 * this model: its layout is the one the code writes, four vectors of a unit
 * string and three components, plus a timestamp.
 */
module TolerantImu {
  import opened Wrappers
  import opened CTypes
  import opened CJson
  import opened Schema
  import TolerantData

  /** One vector of the ImuData struct: the unit string and three components. */
  datatype ImuVector = ImuVector(unit: string, x: Float64, y: Float64, z: Float64)

  /** A snapshot of the ImuData struct. */
  datatype ImuData = ImuData(timestamp: Float64, accTop: ImuVector, acc: ImuVector, mag: ImuVector, gyr: ImuVector)

  /** The four devices an element's `dev` can name; each owns one vector of the struct. */
  datatype Device = AccTop | Acc | Mag | Gyr

  const KeyDev := "dev"
  const KeyUnit := "unit"
  const KeyX := "x"
  const KeyY := "y"
  const KeyZ := "z"

  /** The `dev` string that selects each device. */
  function DeviceName(dev: Device): string {
    match dev
    case AccTop => "acctop"
    case Acc => "acc"
    case Mag => "mag"
    case Gyr => "gyr"
  }

  /** The vector of `d` that `dev` owns. */
  function Slot(d: ImuData, dev: Device): ImuVector {
    match dev
    case AccTop => d.accTop
    case Acc => d.acc
    case Mag => d.mag
    case Gyr => d.gyr
  }

  /** `d` with the vector `dev` owns replaced by `v`. */
  function WithSlot(d: ImuData, dev: Device, v: ImuVector): (r: ImuData)
    ensures Slot(r, dev) == v
    ensures r.timestamp == d.timestamp
    ensures forall other :: other != dev ==> Slot(r, other) == Slot(d, other)
  {
    match dev
    case AccTop => d.(accTop := v)
    case Acc => d.(acc := v)
    case Mag => d.(mag := v)
    case Gyr => d.(gyr := v)
  }

  /**
   * The device an element's `dev` names, tested with strcmp in the order
   * acctop, acc, mag, gyr; None when `dev` is not a string or names none of them.
   */
  function DeviceOf(element: Json): Option<Device> {
    var dev := GetObjectItem(element, KeyDev);
    if !IsString(dev) then None
    else if StrEquals(dev.value.valuestring, DeviceName(AccTop)) then Some(AccTop)
    else if StrEquals(dev.value.valuestring, DeviceName(Acc)) then Some(Acc)
    else if StrEquals(dev.value.valuestring, DeviceName(Mag)) then Some(Mag)
    else if StrEquals(dev.value.valuestring, DeviceName(Gyr)) then Some(Gyr)
    else None
  }

  /** An element selects `dev` exactly when its `dev` is a string whose C string is that device's name. */
  lemma DeviceOfName(element: Json, dev: Device)
    ensures DeviceOf(element) == Some(dev) <==>
      IsString(GetObjectItem(element, KeyDev)) && CChars(GetObjectItem(element, KeyDev).value.valuestring) == DeviceName(dev)
  {
    var item := GetObjectItem(element, KeyDev);
    if IsString(item) {
      var name := item.value.valuestring;
      NameEquals(name, AccTop);
      NameEquals(name, Acc);
      NameEquals(name, Mag);
      NameEquals(name, Gyr);
      assert DeviceName(AccTop)[3] != DeviceName(Acc)[0];
      assert |DeviceName(AccTop)| != |DeviceName(Acc)|;
      assert DeviceName(Acc)[0] != DeviceName(Mag)[0] && DeviceName(Mag)[0] != DeviceName(Gyr)[0];
      assert DeviceName(Acc)[0] != DeviceName(Gyr)[0];
    }
  }

  /** strcmp against a device name compares the C string with the whole name. */
  lemma NameEquals(s: string, dev: Device)
    ensures StrEquals(s, DeviceName(dev)) <==> CChars(s) == DeviceName(dev)
  {
    TakeUntilNoTerminator(DeviceName(dev), '\0');
  }

  /** The device an array element updates: an object whose `dev` names one. */
  function Selected(element: Json): Option<Device> {
    if element.Obj? then DeviceOf(element) else None
  }

  /**
   * One vector refreshed from a selected element: the unit when `unit` is a
   * string and each component when it is a number. A missing unit is kept,
   * or emptied when `resetMissingUnit` holds, as the gyr branch does.
   */
  function ApplyImuVector(v: ImuVector, element: Json, resetMissingUnit: bool): ImuVector {
    ImuVector(
      CStringMember(element, KeyUnit).UnwrapOr(if resetMissingUnit then "" else v.unit),
      NumberMember(element, KeyX).UnwrapOr(v.x),
      NumberMember(element, KeyY).UnwrapOr(v.y),
      NumberMember(element, KeyZ).UnwrapOr(v.z))
  }

  /** One pass of the loop body: the selected device's vector refreshed, everything else kept. */
  function ApplyImuElement(d: ImuData, element: Json): ImuData {
    match Selected(element)
    case None => d
    case Some(dev) => WithSlot(d, dev, ApplyImuVector(Slot(d, dev), element, dev == Gyr))
  }

  /** The loop over `sensor_data`, element by element in array order. */
  function ApplyImuElements(d: ImuData, items: seq<Json>): ImuData
    decreases |items|
  {
    if items == [] then d
    else ApplyImuElement(ApplyImuElements(d, items[..|items| - 1]), items[|items| - 1])
  }

  /** The record parse_imu_data leaves behind when it held `d`. */
  function ApplyImu(d: ImuData, root: Json): ImuData {
    var refreshed := d.(timestamp := NumberMember(root, TolerantData.KeyTimestamp).UnwrapOr(d.timestamp));
    var sensorData := GetObjectItem(root, TolerantData.KeySensorData);
    if IsArray(sensorData) then ApplyImuElements(refreshed, sensorData.value.items) else refreshed
  }

  /**
   * Inside a selected element each component is refreshed like a one-key
   * field of the schema tables; the unit too, except that a gyr element
   * without a string unit empties it.
   */
  lemma ApplyImuVectorFields(v: ImuVector, element: Json, resetMissingUnit: bool)
    ensures NumberValue(ApplyImuVector(v, element, resetMissingUnit).x) ==
      Refresh(element, Field([KeyX], NumberKind), NumberValue(v.x))
    ensures NumberValue(ApplyImuVector(v, element, resetMissingUnit).y) ==
      Refresh(element, Field([KeyY], NumberKind), NumberValue(v.y))
    ensures NumberValue(ApplyImuVector(v, element, resetMissingUnit).z) ==
      Refresh(element, Field([KeyZ], NumberKind), NumberValue(v.z))
    ensures StringValue(ApplyImuVector(v, element, resetMissingUnit).unit) ==
      Refresh(element, Field([KeyUnit], StringKind), StringValue(if resetMissingUnit then "" else v.unit))
  {
    RefreshNumber(element, KeyX, v.x);
    RefreshNumber(element, KeyY, v.y);
    RefreshNumber(element, KeyZ, v.z);
    RefreshString(element, KeyUnit, if resetMissingUnit then "" else v.unit);
  }

  /**
   * A gyr element without a string `unit` empties gyr_unit, while an element
   * for any other device without one keeps that device's unit.
   */
  lemma MissingUnit(d: ImuData, element: Json, dev: Device)
    requires Selected(element) == Some(dev)
    requires !IsString(GetObjectItem(element, KeyUnit))
    ensures Slot(ApplyImuElement(d, element), dev).unit == if dev == Gyr then "" else Slot(d, dev).unit
  {
  }

  /** An element leaves the timestamp and every vector it does not select as they were. */
  lemma ImuElementFrame(d: ImuData, element: Json, dev: Device)
    requires Selected(element) != Some(dev)
    ensures ApplyImuElement(d, element).timestamp == d.timestamp
    ensures Slot(ApplyImuElement(d, element), dev) == Slot(d, dev)
  {
  }

  /** The loop over `a + b` is the loop over `a` followed by the loop over `b`. */
  lemma {:induction false} ApplyImuElementsAppend(d: ImuData, a: seq<Json>, b: seq<Json>)
    ensures ApplyImuElements(d, a + b) == ApplyImuElements(ApplyImuElements(d, a), b)
    decreases |b|
  {
    if b == [] {
      assert a + b == a;
    } else {
      var b' := b[..|b| - 1];
      assert (a + b)[..|a + b| - 1] == a + b';
      assert (a + b)[|a + b| - 1] == b[|b| - 1];
      ApplyImuElementsAppend(d, a, b');
    }
  }

  /** A vector no element of `items` selects keeps its value through the whole loop. */
  lemma {:induction false} ImuElementsFrame(d: ImuData, items: seq<Json>, dev: Device)
    requires forall k :: 0 <= k < |items| ==> Selected(items[k]) != Some(dev)
    ensures Slot(ApplyImuElements(d, items), dev) == Slot(d, dev)
    ensures ApplyImuElements(d, items).timestamp == d.timestamp
    decreases |items|
  {
    if items != [] {
      var prefix := items[..|items| - 1];
      ImuElementsFrame(d, prefix, dev);
      ImuElementFrame(ApplyImuElements(d, prefix), items[|items| - 1], dev);
    }
  }

  /** Elements that are not objects, or whose `dev` is not one of the four names, change nothing. */
  lemma {:induction false} SkippedElements(d: ImuData, items: seq<Json>)
    requires forall k :: 0 <= k < |items| ==> Selected(items[k]).None?
    ensures ApplyImuElements(d, items) == d
    decreases |items|
  {
    if items != [] {
      SkippedElements(d, items[..|items| - 1]);
    }
  }

  /** An element that carries a string unit and three numbers. */
  predicate Complete(element: Json) {
    && CStringMember(element, KeyUnit).Some?
    && NumberMember(element, KeyX).Some?
    && NumberMember(element, KeyY).Some?
    && NumberMember(element, KeyZ).Some?
  }

  /** The vector a complete element describes. */
  function CompleteVector(element: Json): ImuVector
    requires Complete(element)
  {
    ImuVector(CStringMember(element, KeyUnit).value,
      NumberMember(element, KeyX).value, NumberMember(element, KeyY).value, NumberMember(element, KeyZ).value)
  }

  /**
   * Elements are applied in array order, so the last complete element for a
   * device decides its vector: whatever came before, and whatever later
   * elements do to the other devices.
   */
  lemma LastCompleteElementWins(d: ImuData, before: seq<Json>, element: Json, after: seq<Json>, dev: Device)
    requires Selected(element) == Some(dev) && Complete(element)
    requires forall k :: 0 <= k < |after| ==> Selected(after[k]) != Some(dev)
    ensures Slot(ApplyImuElements(d, before + [element] + after), dev) == CompleteVector(element)
  {
    ApplyImuElementsAppend(d, before + [element], after);
    var middle := ApplyImuElements(d, before + [element]);
    ImuElementsFrame(middle, after, dev);
    assert (before + [element])[..|before + [element]| - 1] == before;
  }

  /** imu_data_default: every number zero and every unit empty. */
  const ImuZero := ImuData(Zero, ImuVector("", Zero, Zero, Zero), ImuVector("", Zero, Zero, Zero),
    ImuVector("", Zero, Zero, Zero), ImuVector("", Zero, Zero, Zero))

  /** The ImuData struct, written in place by the parser. */
  class ImuRecord {
    var timestamp: Float64
    var accTopX: Float64
    var accTopY: Float64
    var accTopZ: Float64
    var accX: Float64
    var accY: Float64
    var accZ: Float64
    var magX: Float64
    var magY: Float64
    var magZ: Float64
    var gyrX: Float64
    var gyrY: Float64
    var gyrZ: Float64
    var accTopUnit: string
    var accUnit: string
    var magUnit: string
    var gyrUnit: string

    /** The struct's current contents. */
    function Value(): ImuData
      reads this
    {
      ImuData(timestamp,
        ImuVector(accTopUnit, accTopX, accTopY, accTopZ),
        ImuVector(accUnit, accX, accY, accZ),
        ImuVector(magUnit, magX, magY, magZ),
        ImuVector(gyrUnit, gyrX, gyrY, gyrZ))
    }

    /** Writes the unit and the three components of the vector `dev` owns. */
    method StoreSlot(dev: Device, v: ImuVector)
      modifies this
      ensures Value() == WithSlot(old(Value()), dev, v)
    {
      match dev
      case AccTop => StoreAccTop(v);
      case Acc => StoreAcc(v);
      case Mag => StoreMag(v);
      case Gyr => StoreGyr(v);
    }

    /** Writes the acctop vector. */
    method StoreAccTop(v: ImuVector)
      modifies this
      ensures Value() == old(Value()).(accTop := v)
    {
      accTopUnit := v.unit;
      accTopX := v.x;
      accTopY := v.y;
      accTopZ := v.z;
    }

    /** Writes the acc vector. */
    method StoreAcc(v: ImuVector)
      modifies this
      ensures Value() == old(Value()).(acc := v)
    {
      accUnit := v.unit;
      accX := v.x;
      accY := v.y;
      accZ := v.z;
    }

    /** Writes the mag vector. */
    method StoreMag(v: ImuVector)
      modifies this
      ensures Value() == old(Value()).(mag := v)
    {
      magUnit := v.unit;
      magX := v.x;
      magY := v.y;
      magZ := v.z;
    }

    /** Writes the gyr vector. */
    method StoreGyr(v: ImuVector)
      modifies this
      ensures Value() == old(Value()).(gyr := v)
    {
      gyrUnit := v.unit;
      gyrX := v.x;
      gyrY := v.y;
      gyrZ := v.z;
    }
  }

  /** imu_data_default: the timestamp, the twelve components and the four units cleared. */
  method ImuDataDefault(imuData: ImuRecord)
    modifies imuData
    ensures imuData.Value() == ImuZero
  {
    imuData.timestamp := Zero;
    imuData.StoreSlot(AccTop, ImuZero.accTop);
    imuData.StoreSlot(Acc, ImuZero.acc);
    imuData.StoreSlot(Mag, ImuZero.mag);
    imuData.StoreSlot(Gyr, ImuZero.gyr);
  }

  /**
   * parse_imu_data: the timestamp when it is a number, then each element of
   * a `sensor_data` array in order, each refreshing the vector its `dev`
   * selects. The result is always true.
   */
  method ParseImuData(root: Json, imuData: ImuRecord) returns (ok: bool)
    modifies imuData
    ensures ok
    ensures imuData.Value() == ApplyImu(old(imuData.Value()), root)
  {
    var timestamp := NumberMember(root, TolerantData.KeyTimestamp);
    if timestamp.Some? {
      imuData.timestamp := timestamp.value;
    }
    var sensorData := GetObjectItem(root, TolerantData.KeySensorData);
    if IsArray(sensorData) {
      var items := sensorData.value.items;
      ghost var start := imuData.Value();
      var index := 0;
      while index < |items|
        invariant 0 <= index <= |items|
        invariant imuData.Value() == ApplyImuElements(start, items[..index])
      {
        var element := items[index];
        if element.Obj? {
          var dev := DeviceOf(element);
          if dev.Some? {
            var refreshed := ApplyImuVector(Slot(imuData.Value(), dev.value), element, dev.value == Gyr);
            imuData.StoreSlot(dev.value, refreshed);
          }
        }
        assert items[..index + 1][..index] == items[..index];
        index := index + 1;
      }
      assert items[..index] == items;
    }
    return true;
  }
}
