/**
 * parse_status_data, parse_data and on_json_received of the firmware variant
 * in fw_screen/main/data.c: the router that hands a message to one of the
 * three tolerant record parsers or to the status list, by its "topic".
 */
module TolerantRouter {
  import opened Wrappers
  import opened CTypes
  import opened CJson
  import opened Topics
  import TolerantData
  import TolerantImu

  const KeyMsg := "msg"

  /**
   * The status list that add_text_to_status_list appends to. That function's
   * code is not part of this model; it is taken to append the C string it is given.
   */
  class StatusList {
    var lines: seq<string>

    constructor ()
      ensures lines == []
    {
      lines := [];
    }

    /** add_text_to_status_list. */
    method Add(text: string)
      modifies this
      ensures lines == old(lines) + [text]
    {
      lines := lines + [text];
    }
  }

  /**
   * parse_status_data: a string `msg` is appended to the status list and the
   * result is true; otherwise nothing is appended and the result is false.
   */
  method ParseStatusData(root: Json, status: StatusList) returns (ok: bool)
    modifies status
    ensures ok <==> IsString(GetObjectItem(root, KeyMsg))
    ensures status.lines == if ok then old(status.lines) + [CStringMember(root, KeyMsg).value] else old(status.lines)
  {
    var msg := GetObjectItem(root, KeyMsg);
    if !IsString(msg) {
      return false;
    }
    status.Add(CChars(msg.value.valuestring));
    return true;
  }

  /** The codes parse_data of this variant returns. */
  datatype ParseReturnCode =
    | PrcParsingError
    | PrcUpdatedAnemometer
    | PrcUpdateParticulateMatter
    | PrcUpdateImu
    | PrcStatus

  /**
   * The code parse_data returns. The three record parsers of this variant
   * always succeed, so their topics always report an update; "status"
   * reports PRC_STATUS only when the status parser accepts the message.
   */
  function ParseDataResult(json: Json): (r: ParseReturnCode)
    ensures r == PrcUpdatedAnemometer <==> TopicIs(json, TopicAnemometer)
    ensures r == PrcUpdateParticulateMatter <==> TopicIs(json, TopicParticulateMatter)
    ensures r == PrcUpdateImu <==> TopicIs(json, TopicImu)
    ensures r == PrcStatus <==> TopicIs(json, TopicStatus) && IsString(GetObjectItem(json, KeyMsg))
  {
    TopicNames();
    var topic := GetObjectItem(json, KeyTopic);
    if !IsString(topic) then PrcParsingError
    else if StrEquals(topic.value.valuestring, TopicAnemometer) then PrcUpdatedAnemometer
    else if StrEquals(topic.value.valuestring, TopicParticulateMatter) then PrcUpdateParticulateMatter
    else if StrEquals(topic.value.valuestring, TopicImu) then PrcUpdateImu
    else if StrEquals(topic.value.valuestring, TopicStatus) && IsString(GetObjectItem(json, KeyMsg)) then PrcStatus
    else PrcParsingError
  }

  /**
   * A missing or non-string topic, the "type" command topic, a topic none of
   * the parsers handles and a status message without a string `msg` all
   * yield PRC_PARSING_ERROR.
   */
  lemma ParseDataErrors(json: Json)
    ensures !IsString(GetObjectItem(json, KeyTopic)) ==> ParseDataResult(json) == PrcParsingError
    ensures TopicIs(json, TopicCommand) ==> ParseDataResult(json) == PrcParsingError
    ensures
      && !TopicIs(json, TopicAnemometer)
      && !TopicIs(json, TopicParticulateMatter)
      && !TopicIs(json, TopicImu)
      && !TopicIs(json, TopicStatus)
      ==> ParseDataResult(json) == PrcParsingError
    ensures TopicIs(json, TopicStatus) && !IsString(GetObjectItem(json, KeyMsg)) ==>
      ParseDataResult(json) == PrcParsingError
  {
    TopicNames();
  }

  /**
   * parse_data: routes the message by its topic. Only the record the topic
   * names changes, or only the status list; every other one keeps its value.
   * The particulate-matter parser is handed `pmData` but writes
   * `particulateMatterData`.
   */
  method ParseData(json: Json, anmData: TolerantData.AnemometerRecord,
                   pmData: TolerantData.ParticulateMatterRecord,
                   particulateMatterData: TolerantData.ParticulateMatterRecord,
                   imuData: TolerantImu.ImuRecord, status: StatusList) returns (code: ParseReturnCode)
    modifies anmData, particulateMatterData, imuData, status
    ensures code == ParseDataResult(json)
    ensures anmData.Value() ==
      if code == PrcUpdatedAnemometer then TolerantData.ApplyAnemometer(old(anmData.Value()), json)
      else old(anmData.Value())
    ensures particulateMatterData.Value() ==
      if code == PrcUpdateParticulateMatter then TolerantData.ApplyParticulateMatter(old(particulateMatterData.Value()), json)
      else old(particulateMatterData.Value())
    ensures imuData.Value() ==
      if code == PrcUpdateImu then TolerantImu.ApplyImu(old(imuData.Value()), json) else old(imuData.Value())
    ensures status.lines ==
      if code == PrcStatus then old(status.lines) + [CStringMember(json, KeyMsg).value] else old(status.lines)
  {
    var topic := GetObjectItem(json, KeyTopic);
    if !IsString(topic) {
      return PrcParsingError;
    }
    if StrEquals(topic.value.valuestring, TopicAnemometer) {
      var ok := TolerantData.ParseAnemometerData(json, anmData);
      if ok {
        return PrcUpdatedAnemometer;
      }
    }
    if StrEquals(topic.value.valuestring, TopicParticulateMatter) {
      var ok := TolerantData.ParseParticulateMatterData(json, pmData, particulateMatterData);
      if ok {
        return PrcUpdateParticulateMatter;
      }
    }
    if StrEquals(topic.value.valuestring, TopicImu) {
      var ok := TolerantImu.ParseImuData(json, imuData);
      if ok {
        return PrcUpdateImu;
      }
    }
    if StrEquals(topic.value.valuestring, TopicStatus) {
      var ok := ParseStatusData(json, status);
      if ok {
        return PrcStatus;
      }
    }
    // The "type" topic is only logged; it falls through to the error like any unknown topic.
    return PrcParsingError;
  }

  /** What the display is asked to show after one message. */
  datatype DisplayUpdate =
    | ShowAnemometer(anm: TolerantData.AnemometerData)
    | ShowParticulateMatter(pm: TolerantData.ParticulateMatterData)
    | ShowImu(imu: TolerantImu.ImuData)
    | NoUpdate

  /**
   * on_json_received: parses into the three global records and hands the one
   * that changed to the display. A status message only extends the status
   * list, and a parsing error shows nothing.
   */
  method OnJsonReceived(json: Json, anemometerData: TolerantData.AnemometerRecord,
                        particulateMatterData: TolerantData.ParticulateMatterRecord,
                        imuData: TolerantImu.ImuRecord, status: StatusList) returns (shown: DisplayUpdate)
    modifies anemometerData, particulateMatterData, imuData, status
    ensures shown == match ParseDataResult(json)
      case PrcUpdatedAnemometer => ShowAnemometer(TolerantData.ApplyAnemometer(old(anemometerData.Value()), json))
      case PrcUpdateParticulateMatter =>
        ShowParticulateMatter(TolerantData.ApplyParticulateMatter(old(particulateMatterData.Value()), json))
      case PrcUpdateImu => ShowImu(TolerantImu.ApplyImu(old(imuData.Value()), json))
      case PrcStatus => NoUpdate
      case PrcParsingError => NoUpdate
    ensures anemometerData.Value() ==
      if ParseDataResult(json) == PrcUpdatedAnemometer then TolerantData.ApplyAnemometer(old(anemometerData.Value()), json)
      else old(anemometerData.Value())
    ensures particulateMatterData.Value() ==
      if ParseDataResult(json) == PrcUpdateParticulateMatter then
        TolerantData.ApplyParticulateMatter(old(particulateMatterData.Value()), json)
      else old(particulateMatterData.Value())
    ensures imuData.Value() ==
      if ParseDataResult(json) == PrcUpdateImu then TolerantImu.ApplyImu(old(imuData.Value()), json)
      else old(imuData.Value())
    ensures status.lines ==
      if ParseDataResult(json) == PrcStatus then old(status.lines) + [CStringMember(json, KeyMsg).value]
      else old(status.lines)
  {
    var code := ParseData(json, anemometerData, particulateMatterData, particulateMatterData, imuData, status);
    match code
    case PrcUpdatedAnemometer =>
      shown := ShowAnemometer(anemometerData.Value());
    case PrcUpdateParticulateMatter =>
      shown := ShowParticulateMatter(particulateMatterData.Value());
    case PrcUpdateImu =>
      shown := ShowImu(imuData.Value());
    case PrcStatus =>
      shown := NoUpdate;
    case PrcParsingError =>
      shown := NoUpdate;
  }
}
