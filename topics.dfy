/**
 * The "topic" member both firmware variants route on, and the topic names
 * their parse_data compares it with (main/data.c and fw_screen/main/data.c
 * each spell them as literals; the host bridge inserts the same ones).
 */
module Topics {
  import opened CTypes
  import opened CJson

  const KeyTopic := "topic"
  const TopicAnemometer := "anm"
  const TopicParticulateMatter := "sps"
  const TopicImu := "imu"
  const TopicStatus := "status"
  /** The topic of the commands the display sends back; parse_data only logs it. */
  const TopicCommand := "type"

  /** The message's "topic" is a string that strcmp finds equal to `name`. */
  predicate TopicIs(json: Json, name: string) {
    var topic := GetObjectItem(json, KeyTopic);
    IsString(topic) && StrEquals(topic.value.valuestring, name)
  }

  /** The topic names hold no NUL, so strcmp compares them whole. */
  lemma TopicNames()
    ensures CChars(TopicAnemometer) == TopicAnemometer
    ensures CChars(TopicParticulateMatter) == TopicParticulateMatter
    ensures CChars(TopicImu) == TopicImu
    ensures CChars(TopicStatus) == TopicStatus
    ensures CChars(TopicCommand) == TopicCommand
  {
    TakeUntilNoTerminator(TopicImu, '\0');
    TakeUntilNoTerminator(TopicStatus, '\0');
  }
}
