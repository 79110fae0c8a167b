# fw_screen receive path, modelled in Dafny

fw_screen is an ESP32 display. It receives sensor readings as JSON and shows them. There are three sensors:

- an ultrasonic anemometer (topic `anm`);
- an SPS30 particulate-matter sensor (topic `sps`);
- an IMU (topic `imu`).

Status texts arrive on the topic `status`. A Rust bridge on the host subscribes to the sensors' MQTT topics, tags each message with its firmware topic, and writes it to the device's serial link. In the other direction, the bridge publishes the `command` lines the device sends back.

The project models that path from end to end.

**Firmware: decoding and routing**

- `StrictData` covers `main/data.c`. It checks every field of a message before writing any, so a message is applied whole or not at all.
- `TolerantData`, `TolerantImu` and `TolerantRouter` cover the later variant in `fw_screen/main/data.c`. It refreshes each field that is present with the right type and keeps all the others. It adds the IMU array parser and the status list.
- `CJson` models the JSON tree and the cJSON accessors the parsers call.
  - `cJSON_GetObjectItem` is the first member whose key matches ignoring ASCII case.
  - `cJSON_Parse` is a function-typed parameter.
- `Schema` describes each wire schema as a table of key paths and type tests. Both parser variants are proved against these tables.
- `CTypes` holds C's fixed-width integers, NUL-terminated strings and `strcpy`.
- `Topics` holds the `topic` key and the topic names. Both variants' `parse_data` compare with them, and the host bridge inserts them.

**Firmware: transports**

- `UsbCdc` covers `main/usb_cdc.c`: it frames lines out of the USB-serial byte stream.
- `TusbCdc` covers `main/tusb_cdc.c`: the TinyUSB receive callback, its queue and task, and `tusb_write`.
- `UartUtils` covers `main/uart_utils.c`:
  - the pattern-driven UART receive task;
  - the transmit queue, with malloc/free ownership of the serialized strings.

**Firmware: display**

- `Screen` covers the backlight duty set by `main/screen.c`.
- `LvglUtils` covers three parts of `main/lvgl_utils.c`:
  - the lock timeout;
  - the touch callback;
  - the render task's delay clamp.

**Host bridge**

`HostBridge` covers `server/src/main.rs`:

- topic matching;
- the anemometer throttle;
- tagging and forwarding;
- the serial listener's line splitting;
- the MQTT and serial writers.

Where the code departs from the documented design, the model follows the code:

- The strict anemometer message has thirteen fields, not fourteen.
- Neither variant resets a record to zeros when a field is missing:
  - the strict variant leaves the record unchanged;
  - the tolerant variant keeps each missing field's old value.
- Nothing in `main/data.c` checks a unit string's length before `strcpy`. This is the first Finding below.
  - The strict router, the USB and TinyUSB receive paths, and the strict particulate-matter parser use the corrected decoder, which rejects such a message.
  - `StrictData.LongUnitOverflowsAsWritten` states what the code as written does.
- The parsers take no display lock.
- `parse_particulate_matter_data` writes the global `particulateMatterData`, not its `sps_data` parameter.

## Model

| member | source | states |
|---|---|---|
| CTypes.ToUint32 | main/data.c:132 | The `(uint32_t)` cast of cJSON's int `valueint`: identity on [0, 2^32), plus 2^32 on a negative int32, always congruent modulo 2^32 |
| CTypes.TakeUntil | main/uart_utils.c:76 | What `strlen`/`strcmp` see in a buffer: a prefix of the buffer holding no terminator, followed by the terminator whenever it is shorter than the buffer |
| CTypes.TakeUntilNoTerminator | main/data.c:297-307 | A string with no NUL, such as a topic literal, is compared by `strcmp` in full |
| CTypes.TakeUntilPrefix | main/usb_cdc.c:55 | Writing a NUL right after a line hides whatever the buffer holds beyond it |
| CTypes.TakeUntilTerminated | main/uart_utils.c:74 | A NUL written into a buffer hides what follows it and leaves the C string of what precedes it unchanged |
| CTypes.Utf8Length | main/data.c:273-280 | The bytes a string takes as a C string: at least one per character, and exactly one per character exactly when it is ASCII |
| CTypes.StrCpy | main/data.c:273-280 | `strcpy` into a char array with room: the array then holds the source's C string and a NUL, the rest of the array is untouched, and the array's C string equals the source's |
| CJson.GetObjectItemFirstMatch | main/data.c:54-73 | `cJSON_GetObjectItem` finds a member exactly when some key matches ignoring case, and then returns the first matching one; it returns nothing on a non-object |
| CJson.GetObjectItemAt | main/data.c:54-73 | Conversely, a matching key preceded only by non-matching keys is the member returned |
| CJson.Lookup | main/data.c:169-190 | A chain of nested lookups reaches a node only through objects |
| Schema.ValueOf | main/data.c:132-153 | The value a parser stores for an item that passed its type test: `valuedouble` for a number, `cJSON_IsTrue` for a flag, the uint32 cast of `valueint` for the strict timestamp, and the NUL-free C string `strcpy` copies for a unit |
| Schema.PresentKey | main/data.c:75-130 | A one-key table field is present exactly when `cJSON_GetObjectItem` on the root passes the type test, and its value is then that item's value |
| Schema.PresentKey2 | main/data.c:221-249 | The same for a field inside `sensor_data`: the outer lookup must be an object and the inner one must pass the test |
| Schema.PresentKey3 | main/data.c:176-196 | The same for a field two objects deep (`sensor_data` → `mass_density` → `pm1.0`) |
| Schema.RefreshNumber | fw_screen/main/data.c:84-90 | A tolerant number field takes the message's double when the key holds a number, and keeps its value otherwise |
| Schema.RefreshBool | fw_screen/main/data.c:117-146 | A tolerant flag takes `cJSON_IsTrue` when the key holds a boolean, and keeps its value otherwise |
| Schema.RefreshString | fw_screen/main/data.c:445-452 | A tolerant unit takes the member's C string when it is a string, and keeps its value otherwise |
| Schema.RefreshNumber2 | fw_screen/main/data.c:352-359 | A number under `sensor_data` is refreshed only through the object test on `sensor_data` |
| Schema.RefreshString2 | fw_screen/main/data.c:364-371 | A unit under `sensor_data` is refreshed only through the object test on `sensor_data` |
| Schema.RefreshNumber3 | fw_screen/main/data.c:229-245 | A number two objects deep is refreshed only when both enclosing nodes are objects |
| StrictData.DecodeAnemometer | main/data.c:53-157 | `parse_anemometer_data` accepts a message exactly when all thirteen table fields are present with their types |
| StrictData.DecodeAnemometerFields | main/data.c:132-153 | Every field of an accepted record is the value the table extracts for it: the timestamp's uint32 cast, the doubles, the `cJSON_IsTrue` flags |
| StrictData.AnemometerEntries | main/data.c:54-73 | The table lists the parser's thirteen keys with their type tests |
| StrictData.AnemometerConforms | main/data.c:75-130 | Conformance to the table is the conjunction of the parser's thirteen type tests |
| StrictData.AnemometerGuardsConform | main/data.c:75-130 | Passing the parser's tests implies conformance to the table |
| StrictData.AnemometerGuardPresent | main/data.c:75-130 | Each test of the parser makes its table entry present |
| StrictData.AnemometerRecord.Store | main/data.c:132-153 | The write-back leaves the struct equal to the decoded record |
| StrictData.AnemometerRecord.StoreAxisX | main/data.c:132-151 | Writes the timestamp and the x-axis fields and nothing else |
| StrictData.AnemometerRecord.StoreAxisY | main/data.c:134-152 | Writes the y-axis fields and nothing else |
| StrictData.AnemometerRecord.StoreAxisZ | main/data.c:135-153 | Writes the z-axis fields and nothing else |
| StrictData.AnemometerRecord.constructor | main/data.c:11 | The static struct starts zero-filled |
| StrictData.AnemometerDataDefault | main/data.c:14-30 | Every measurement and flag is cleared, and the timestamp keeps its value |
| StrictData.ParseAnemometerData | main/data.c:53-157 | Returns true exactly when the message conforms. It then writes the decoded record; otherwise the struct is unchanged |
| StrictData.DecodeParticulateMatterAsWritten | main/data.c:159-282 | The as-written checks accept exactly the messages conforming to the fourteen-field table |
| StrictData.ParticulateMatterEntries | main/data.c:162-231 | The table lists the parser's key paths with their type tests |
| StrictData.ParticulateMatterConforms | main/data.c:164-249 | Conformance to the table is exactly the parser's chain of object and type tests |
| StrictData.ConformsParticulateMatterGuards | main/data.c:164-249 | Conformance implies the parser's tests pass |
| StrictData.ParticulateMatterGuardsConform | main/data.c:164-249 | The parser's tests passing implies conformance |
| StrictData.MassDensityGuardsConform | main/data.c:176-196 | The mass-density tests make its four entries present |
| StrictData.ParticleCountGuardsConform | main/data.c:198-219 | The particle-count tests make its five entries present |
| StrictData.SensorGuardsConform | main/data.c:221-249 | The size and unit tests make their four entries present |
| StrictData.DecodeParticulateMatterFields | main/data.c:251-280 | Every field of an accepted record is the value the table extracts for it |
| StrictData.DecodeParticulateMatter | main/data.c:273-280 | The corrected parser accepts exactly what the as-written checks accept and whose three units fit their `char[8]` (counted in UTF-8 bytes, with the NUL), and then yields the same record |
| StrictData.MultiByteUnitDoesNotFit | main/data.c:273-280 | A six-character unit whose micro and cube signs take two bytes each does not fit `char[8]` |
| StrictData.LongUnitOverflowsAsWritten | main/data.c:273-274 | The as-written checks accept a message whose mass-density unit needs ten bytes in an eight-byte array; the corrected parser rejects it |
| StrictData.LongUnitDecoded | main/data.c:159-282 | The record the as-written checks decode from that message |
| StrictData.LongUnitSensorDataLookups | main/data.c:221-231 | The lookups under `sensor_data` in that message |
| StrictData.LongUnitMassDensityLookups | main/data.c:184-190 | The mass-density lookups in that message |
| StrictData.LongUnitParticleCountLookups | main/data.c:205-212 | The particle-count lookups in that message |
| StrictData.ParticulateMatterRecord.constructor | main/data.c:12 | The static struct starts zero-filled, with three distinct eight-byte unit arrays holding empty strings |
| StrictData.ParticulateMatterRecord.StoreMeasurements | main/data.c:251-271 | Writes every numeric field from the decoded record |
| StrictData.DefaultAsWrittenKeepsPm4_0 | main/data.c:35-38 | The default as written never touches pm4.0, so it reaches the zero record only when pm4.0 already was zero |
| StrictData.ParticulateMatterDataDefault | main/data.c:32-51 | The corrected default clears every number, pm4.0 included, and empties every unit |
| StrictData.ParseParticulateMatterData | main/data.c:159-282 | Returns true exactly when the corrected parser accepts. It then writes the record into the global struct; otherwise that struct is unchanged |
| StrictData.ParseDataResult | main/data.c:284-313 | An update code is returned exactly when the topic is `anm` or `sps` and that sensor's parser accepts the message |
| StrictData.ParseDataErrors | main/data.c:292-312 | A missing or non-string topic, the `type` command topic and any other topic yield `PRC_PARSING_ERROR` |
| Topics.TopicNames | main/data.c:297-307 | The topic literals both variants compare with (`anm`, `sps`, `type`, and `imu`, `status` at fw_screen/main/data.c:664-672) hold no NUL, so `strcmp` compares them whole |
| StrictData.LogLeaksAsWritten | main/data.c:288 | As written, each message whose `cJSON_Print` succeeds leaves one more string live and frees nothing |
| StrictData.LogFreesPrinted | main/data.c:288 | With the printed string freed after logging, the live strings stay the same and one string is freed per printed message |
| StrictData.ParseData | main/data.c:284-313 | Returns that code. Only the record of the named sensor can change, and only when its parser accepts |
| StrictData.OnJsonReceived | main/data.c:315-332 | An accepted `anm` message replaces the anemometer record, and an accepted `sps` message replaces the particulate-matter record. The other record is unchanged, and the replaced record is handed to the display. A parsing error changes nothing and shows nothing |
| StrictData.ShownIsStored | main/data.c:315-332 | The display is handed exactly the record now stored. Showing nothing happens exactly on a parsing error, and then both records are unchanged |
| TolerantData.AnemometerEntries | fw_screen/main/data.c:84-195 | The table lists this variant's thirteen keys, with `x_vout`, `y_vout` and `z_vout` and a double timestamp |
| TolerantData.ApplyAnemometerFields | fw_screen/main/data.c:79-202 | Each field is refreshed exactly when its key holds a value of its type; every other field keeps its value |
| TolerantData.ApplyAnemometerField | fw_screen/main/data.c:79-202 | The same, one entry at a time |
| TolerantData.ApplyAnemometerVout | fw_screen/main/data.c:84-115 | The same for the timestamp and the three output voltages |
| TolerantData.ApplyAnemometerAsse | fw_screen/main/data.c:117-146 | The same for the axis autocalibration flags |
| TolerantData.ApplyAnemometerMisura | fw_screen/main/data.c:147-176 | The same for the measurement autocalibration flags |
| TolerantData.ApplyAnemometerTemp | fw_screen/main/data.c:177-200 | The same for the sonic temperatures |
| TolerantData.AnemometerRecord.Store | fw_screen/main/data.c:79-202 | The write-back leaves the struct equal to the refreshed record |
| TolerantData.AnemometerRecord.StoreVouts | fw_screen/main/data.c:84-115 | Writes the timestamp and the output voltages and nothing else |
| TolerantData.AnemometerRecord.StoreCalibration | fw_screen/main/data.c:117-176 | Writes the six flags and nothing else |
| TolerantData.AnemometerRecord.StoreTemperatures | fw_screen/main/data.c:177-200 | Writes the temperatures and nothing else |
| TolerantData.AnemometerDataDefault | fw_screen/main/data.c:15-31 | Every voltage, flag and temperature is cleared, and the timestamp keeps its value |
| TolerantData.ParseAnemometerData | fw_screen/main/data.c:79-202 | Always returns true, and the struct becomes the refreshed record |
| TolerantData.ParticulateMatterEntries | fw_screen/main/data.c:210-391 | The table lists this variant's key paths with their type tests |
| TolerantData.ApplyParticulateMatterFields | fw_screen/main/data.c:204-399 | Each field is refreshed exactly when its whole path of objects is present and its value has the right type; every other field keeps its value |
| TolerantData.ApplyMassDensityField | fw_screen/main/data.c:229-280 | The same for the four mass densities |
| TolerantData.ApplyParticleCountField | fw_screen/main/data.c:283-347 | The same for the five particle counts |
| TolerantData.ApplySensorDataField | fw_screen/main/data.c:352-394 | The same for the size and the three units |
| TolerantData.SensorDataMissingKeepsMeasurements | fw_screen/main/data.c:221-225 | Without a `sensor_data` object only the timestamp can change |
| TolerantData.MassDensityMissingKeepsGroup | fw_screen/main/data.c:229-234 | Without a `mass_density` object the four densities keep their values |
| TolerantData.ParticleCountMissingKeepsGroup | fw_screen/main/data.c:283-288 | Without a `particle_count` object the five counts keep their values |
| TolerantData.ParticulateMatterRecord.Store | fw_screen/main/data.c:204-399 | The write-back leaves the struct equal to the refreshed record |
| TolerantData.ParticulateMatterRecord.StoreMassDensity | fw_screen/main/data.c:210-280 | Writes the timestamp and the densities and nothing else |
| TolerantData.ParticulateMatterRecord.StoreParticleCount | fw_screen/main/data.c:283-347 | Writes the counts and nothing else |
| TolerantData.ParticulateMatterRecord.StoreSizeAndUnits | fw_screen/main/data.c:352-394 | Writes the size and the units and nothing else |
| TolerantData.DefaultAsWrittenKeepsPm4_0 | fw_screen/main/data.c:33-52 | This variant's default, as written, clears every field except pm4.0, which keeps its value. It reaches the zero record exactly when pm4.0 already was zero |
| TolerantData.ParticulateMatterDataDefault | fw_screen/main/data.c:33-52 | The corrected default clears every number, pm4.0 included, and empties every unit |
| TolerantData.ParseParticulateMatterData | fw_screen/main/data.c:204-399 | Always returns true. The global struct becomes the refreshed record, and `sps_data` is not written |
| TolerantImu.WithSlot | fw_screen/main/data.c:440-620 | Replacing one device's vector changes only that vector |
| TolerantImu.DeviceOfName | fw_screen/main/data.c:432-574 | An element selects a device exactly when its `dev` is a string whose C string is that device's name |
| TolerantImu.NameEquals | fw_screen/main/data.c:440 | `strcmp` against a device name compares the C string with the whole name |
| TolerantImu.ApplyImuVectorFields | fw_screen/main/data.c:443-486 | Within a selected element, each component and the unit is refreshed like a one-key table field. The gyr unit is the exception: it is emptied when missing |
| TolerantImu.MissingUnit | fw_screen/main/data.c:578-587 | A gyr element without a string unit empties `gyr_unit`; any other device keeps its unit |
| TolerantImu.ImuElementFrame | fw_screen/main/data.c:422-622 | An element leaves the timestamp and every vector it does not select unchanged |
| TolerantImu.ApplyImuElementsAppend | fw_screen/main/data.c:422-622 | The loop over `a + b` is the loop over `a`, then the loop over `b` |
| TolerantImu.ImuElementsFrame | fw_screen/main/data.c:422-622 | A vector that no element selects keeps its value through the whole loop |
| TolerantImu.SkippedElements | fw_screen/main/data.c:426-436 | Elements that are not objects, or whose `dev` names no device, change nothing |
| TolerantImu.LastCompleteElementWins | fw_screen/main/data.c:422-622 | The last complete element for a device decides that device's vector |
| TolerantImu.ImuRecord.StoreSlot | fw_screen/main/data.c:440-620 | Writes one device's vector and nothing else |
| TolerantImu.ImuRecord.StoreAccTop | fw_screen/main/data.c:440-486 | Writes the acctop vector |
| TolerantImu.ImuRecord.StoreAcc | fw_screen/main/data.c:487-529 | Writes the acc vector |
| TolerantImu.ImuRecord.StoreMag | fw_screen/main/data.c:530-573 | Writes the mag vector |
| TolerantImu.ImuRecord.StoreGyr | fw_screen/main/data.c:574-620 | Writes the gyr vector |
| TolerantImu.ImuDataDefault | fw_screen/main/data.c:54-77 | Clears the timestamp and the twelve components, and empties the four units |
| TolerantImu.ParseImuData | fw_screen/main/data.c:401-626 | Always returns true. The struct becomes the record obtained by refreshing the timestamp and then applying the `sensor_data` array element by element |
| TolerantRouter.StatusList.constructor | fw_screen/main/data.c:637 | The status list starts empty |
| TolerantRouter.StatusList.Add | fw_screen/main/data.c:637 | Adding appends the text |
| TolerantRouter.ParseStatusData | fw_screen/main/data.c:628-639 | Succeeds exactly when `msg` is a string, and then appends its C string; otherwise nothing is appended |
| TolerantRouter.ParseDataResult | fw_screen/main/data.c:641-680 | `anm`, `sps` and `imu` always report an update. `status` reports `PRC_STATUS` exactly when `msg` is a string |
| TolerantRouter.ParseDataErrors | fw_screen/main/data.c:647-679 | A missing topic, the `type` topic, an unknown topic and a status message without a string `msg` all yield `PRC_PARSING_ERROR` |
| TolerantRouter.ParseData | fw_screen/main/data.c:641-680 | Only the record of the named sensor, or only the status list, changes; everything else keeps its value |
| TolerantRouter.OnJsonReceived | fw_screen/main/data.c:682-704 | Each sensor topic refreshes only its own record from the message, and that record is handed to the display. A status message appends its `msg` to the list and changes no record. An error changes nothing and shows nothing |
| UsbCdc.FeedKeepsHeldLine | main/usb_cdc.c:52-71 | The held line never exceeds 2047 bytes, so the NUL write stays in `json_buffer`. Every line passed on starts with `{` and holds no terminator |
| UsbCdc.FeedAppend | main/usb_cdc.c:41-73 | The lines found in `a + b` are those found in `a` followed by those found in `b`, so where reads split the stream does not matter |
| UsbCdc.FeedAppendsLine | main/usb_cdc.c:64-66 | Bytes without a terminator that fit are appended, and nothing is passed on |
| UsbCdc.ReceiveLine | main/usb_cdc.c:52-63 | A line of up to 2047 bytes that starts with `{` and ends with a newline reaches `process_json_command` whole, and the framer is left empty |
| UsbCdc.EmptyLineSkipped | main/usb_cdc.c:52-53 | A terminator on an empty line does nothing |
| UsbCdc.OversizedLineRestarts | main/usb_cdc.c:67-71 | A line reaching its 2048th byte is dropped together with that byte, and framing restarts after it |
| UsbCdc.Framer.constructor | main/usb_cdc.c:16-17 | The static framer starts empty |
| UsbCdc.Framer.ReadChunk | main/usb_cdc.c:43-73 | One read's bytes move the framer exactly as `Feed` does, and it returns the lines passed on |
| UsbCdc.ProcessJsonCommand | main/usb_cdc.c:20-33 | A line whose C string does not parse shows nothing and changes no record. Any other line has the effect of `on_json_received` on the parsed tree: the same records stored and the same record shown |
| TusbCdc.ToUint8 | main/tusb_cdc.c:44 | The `uint8_t itf` field takes the interface index modulo 256 |
| TusbCdc.RxRequestAsWrittenOverflows | main/tusb_cdc.c:38-39 | The request of `4 * BUFSIZE` exceeds `rx_buf`. Even a read that just fills it leaves the message with no NUL for `cJSON_Parse` |
| TusbCdc.RxRequest | main/tusb_cdc.c:16-39 | The corrected request leaves the last byte of the buffer for the NUL |
| TusbCdc.MessageText | main/tusb_cdc.c:42-47 | Within that request, a NUL-free read becomes a message whose C string is exactly the bytes read, and whose `buf_len` is their count |
| TusbCdc.TusbCdc.constructor | main/tusb_cdc.c:69-70 | The buffer has `BUFSIZE + 1` bytes and the queue starts empty |
| TusbCdc.TusbCdc.RxCallback | main/tusb_cdc.c:33-52 | A successful read is queued, zero-filled, when the ten-slot queue has room, and dropped otherwise. A failed read queues nothing |
| TusbCdc.TusbCdc.RxTaskStep | main/tusb_cdc.c:103-125 | Dequeues the head, with no reassembly across messages. An empty message, or one that does not parse, shows nothing and changes no record. Any other has the effect of `on_json_received` on the parsed tree |
| TusbCdc.TusbCdc.TusbWrite | main/tusb_cdc.c:127-134 | Sends nothing when the host is not connected, and otherwise the message with its newline, cut to 63 characters |
| TusbCdc.Formatted | main/tusb_cdc.c:130 | `"%s\n"` formats the message's C string and a newline, with no NUL inside |
| TusbCdc.Snprintf | main/tusb_cdc.c:130 | Returns the full formatted length. It stores the prefix that fits before a NUL, so the buffer's C string is that prefix |
| TusbCdc.WriteLengthAsWrittenOverreads | main/tusb_cdc.c:130-131 | As written, some message makes `tusb_write` queue more than the 64 bytes of `data_msg` |
| TusbCdc.LineContents | main/tusb_cdc.c:129-131 | With the length bounded, a message of up to 62 characters arrives whole with its newline, a longer one is cut to 63 characters, and no line exceeds the buffer |
| UartUtils.RxLine | main/uart_utils.c:68-78 | A line is produced only for a valid pattern position. It is a NUL-free prefix of what the driver holds, shorter than the read |
| UartUtils.RxLineRoundTrip | main/uart_utils.c:69-81 | A NUL-free line sent with its newline is parsed back exactly |
| UartUtils.UartRx.constructor | main/uart_utils.c:10-12 | No callback is registered and nothing is pending |
| UartUtils.UartRx.RegisterRxCallback | main/uart_utils.c:57-59 | Registers the callback and changes nothing else |
| UartUtils.UartRx.RxEventStep | main/uart_utils.c:61-108 | A pattern event hands the parsed line to the callback at most once. An overflow or a full buffer flushes the input and empties the event queue |
| UartUtils.Send | main/uart_utils.c:154-180 | Each result code has exactly one cause. `ESP_OK` means the tree, the serialization and room in the queue all exist; the new string is then queued with its `strlen`. A NULL tree gives `ESP_ERR_INVALID_ARG`, a failed serialization gives `ESP_ERR_NO_MEM`, and both leave the state unchanged. A full queue gives `ESP_ERR_TIMEOUT`, and the string just allocated is freed at once. On every error the queue and the live strings are unchanged |
| UartUtils.SendOwned | main/uart_utils.c:154-180 | `usb_json_send` keeps the ownership invariant: each queued item owns a distinct live string |
| UartUtils.TransmitOwned | main/uart_utils.c:116-151 | The transmit task keeps the ownership invariant |
| UartUtils.TransmitFrees | main/uart_utils.c:118-148 | An item with a string and a positive length frees that string exactly once. When the mutex is taken, the UART receives the whole string and then a newline |
| UartUtils.ZeroLengthLeaks | main/uart_utils.c:118 | An item of length zero is dequeued without freeing its string |
| UartUtils.FlushOwned | main/uart_utils.c:186-197 | Flushing empties the queue, frees exactly the strings it held, writes nothing, and keeps the invariant |
| UartUtils.SendThenTransmit | main/uart_utils.c:118-124 | A non-empty string sent on an empty queue is the next thing written, whole and followed by a newline, and the heap is restored afterwards |
| UartUtils.UartTx.constructor | main/uart_utils.c:24-25 | The queue and the heap bookkeeping start empty, and the ownership invariant holds |
| UartUtils.UartTx.UsbJsonSend | main/uart_utils.c:154-180 | Follows `Send` and keeps the ownership invariant |
| UartUtils.UartTx.TxEventStep | main/uart_utils.c:116-151 | Follows `Transmit` and keeps the ownership invariant |
| UartUtils.UartTx.UsbJsonGetTxPending | main/uart_utils.c:182-184 | Returns the number of items waiting |
| UartUtils.UartTx.UsbJsonFlushTxQueue | main/uart_utils.c:186-197 | Follows `Flush`, leaving the queue empty |
| HostBridge.MatchTopicSubscriptions | server/src/main.rs:49-57 | A topic is `Unknown` exactly when it is not one of the four subscribed topics, and each subscribed topic maps to its own type |
| HostBridge.TagsAreFirmwareTopics | server/src/main.rs:179-221 | The tags the callbacks insert are exactly the topics the firmware's router dispatches on |
| HostBridge.TagMembers | server/src/main.rs:180-183 | Tagging succeeds exactly on an object. The `topic` member becomes the tag and every other member is kept |
| HostBridge.HasElapsedBetweenMeaning | server/src/main.rs:393-400 | With saturating `duration_since`, the interval has elapsed exactly when the current time is at least the earlier time plus the duration |
| HostBridge.Admit | server/src/main.rs:521-534 | A message is dropped exactly when its topic is unknown, or when it is an anemometer message inside the filter interval. Admitting an anemometer message moves the last-admitted time to now |
| HostBridge.ThrottleSpacing | server/src/main.rs:527-534 | Over any run of arrival times, admitted anemometer messages are at least the filter duration apart, and each was an arrival |
| HostBridge.MqttTask.constructor | server/src/main.rs:459-460 | Starts unsubscribed, with the last anemometer time at start-up |
| HostBridge.MqttTask.Subscribe | server/src/main.rs:464-507 | A successful subscription sets the flag, and nothing else changes |
| HostBridge.MqttTask.Poll | server/src/main.rs:513-589 | A publication is throttled, then decoded, tagged and queued. Other events change nothing, and a connection error clears the subscription |
| HostBridge.TrimStart | server/src/main.rs:350 | Removes exactly the maximal leading run of Unicode whitespace |
| HostBridge.TrimEnd | server/src/main.rs:350 | Removes exactly the maximal trailing run of Unicode whitespace |
| HostBridge.TrimMeaning | server/src/main.rs:350-351 | A trimmed line is empty exactly when the line is all whitespace, and trimming is idempotent |
| HostBridge.FindNewline | server/src/main.rs:348 | Finds the first `\n`, or none when there is no `\n` |
| HostBridge.SplitRest | server/src/main.rs:348-349 | What the drain loop leaves in the buffer holds no newline |
| HostBridge.SplitLines | server/src/main.rs:348-349 | Every drained line ends with its only newline |
| HostBridge.SplitConcat | server/src/main.rs:346-369 | The drained lines followed by the remainder are the buffer: nothing is lost, duplicated or reordered |
| HostBridge.SplitStep | server/src/main.rs:348-349 | One drain takes the buffer up to and including its first newline |
| HostBridge.SerialListener.constructor | server/src/main.rs:324 | The line buffer starts empty |
| HostBridge.SerialListener.Receive | server/src/main.rs:344-369 | After a chunk, the buffer is the remainder of splitting the old buffer plus the chunk, and each complete line has been forwarded in order |
| HostBridge.ForwardLineMeaning | server/src/main.rs:350-367 | A line is forwarded exactly when its trimmed text is non-empty and parses as JSON, and then as its compact serialization |
| HostBridge.Command | server/src/main.rs:279-306 | Publishes exactly when the line parses to an object whose exact key `command` holds a string, and publishes that string |
| HostBridge.CommandKeyExact | server/src/main.rs:283 | The `command` key matches case-sensitively, unlike cJSON's lookups on the firmware |
| HostBridge.MqttWriter.constructor | server/src/main.rs:260-268 | Nothing has been published |
| HostBridge.MqttWriter.Handle | server/src/main.rs:268-313 | Publishes the command of each queued line that has one, in order |
| HostBridge.SerialWriter.constructor | server/src/main.rs:223-231 | Nothing has been written |
| HostBridge.SerialWriter.Write | server/src/main.rs:231-256 | Writes each message followed by a newline |
| HostBridge.WrittenLineFramed | server/src/main.rs:241 | A one-line ASCII message starting with `{`, shorter than 2048 bytes and written with its newline, is received whole by the firmware's USB framer |
| Screen.Duty | main/screen.c:143 | The duty is `level * 1023 / 100` rounded down, at most 1023 |
| Screen.DutyEnds | main/screen.c:143 | Level 0 gives duty 0 and level 100 gives the full 10-bit duty 1023 |
| Screen.DutyMonotonic | main/screen.c:143 | A higher level never gives a lower duty |
| Screen.Backlight.constructor | main/screen.c:132 | The channel starts at zero duty |
| Screen.Backlight.SetLevel | main/screen.c:137-149 | A level over 100 is refused and the duty kept; any other level sets its duty |
| LvglUtils.MsToTicks | main/lvgl_utils.c:131 | Without wrap-around the tick count is `ms * rate / 1000`; the 32-bit `TickType_t` wrap is written out |
| LvglUtils.LockTimeoutMeaning | main/lvgl_utils.c:126-133 | -1 waits forever (`portMAX_DELAY`), and at tick rates up to 1000 Hz every other timeout is bounded |
| LvglUtils.TouchPointMeaning | main/lvgl_utils.c:38-44 | A point is reported exactly when the controller reports a press with at least one point, and it is the first point |
| LvglUtils.TouchCb | main/lvgl_utils.c:29-45 | A press writes PRESSED and the point. Otherwise RELEASED is written and the point is kept |
| LvglUtils.Clamp | main/lvgl_utils.c:145-149 | The delay is clamped into [1, 500], and a delay already inside is unchanged |
| LvglUtils.DelaysBounded | main/lvgl_utils.c:137-150 | Every delay slept lies in [1, 500]; a pass that does not take the lock repeats the previous delay |
| LvglUtils.DelaysStep | main/lvgl_utils.c:138-150 | One pass of the inner loop as `Delays` takes it |
| LvglUtils.RenderTask.constructor | main/lvgl_utils.c:137 | Starts at `LVGL_TASK_MAX_DELAY_MS` |
| LvglUtils.RenderTask.Run | main/lvgl_utils.c:138-151 | Returns exactly the `Delays` of the passes, and carries the last delay to the next pass |

Proof helpers with no row, since they state facts about Dafny values rather than about the source:
- `CTypes.AppendEmpty`, `CTypes.AppendAssoc` and `CTypes.SliceJoin` are sequence identities; `CTypes.Utf8Width` is the per-character step of `CTypes.Utf8Length`.
- `CJson.ToLowerAscii`, `CJson.KeysDifferAt`, `CJson.FindMemberFirst`, `CJson.FindMemberAt`, `CJson.LookupSnoc` and `CJson.LookupSingle` are steps of the lookup proofs.
- `HostBridge.Ascii`, `HostBridge.ConcatCons`, `HostBridge.DrainStart`, `HostBridge.DrainStep`, `HostBridge.DrainEnd`, `HostBridge.SplitNone` and `HostBridge.ForwardLinesSnoc` are steps of the line-splitting proofs.

## Left out

- Floating point: doubles are opaque 64-bit patterns (`Float64`); the code only copies them.
- cJSON itself:
  - `cJSON_Parse` is a function-typed parameter.
  - `cJSON_Print`, `cJSON_PrintUnformatted`, `cJSON_Delete` and `cJSON_free` are modelled only for the heap strings they create or free: the transmit queue in `UartUtils`, and the log line of `parse_data` at `main/data.c:288` (the `LogAll` functions in `StrictData`). Their printed text is a parameter.
- serde_json on the host:
  - parsing, `to_string`, `to_string_pretty`, `from_utf8` and `from_utf8_lossy` are fields of a `Codec` parameter;
  - a JSON object is a map with exact-key lookup.
- `from_utf8_lossy` is applied to each read chunk, as the listener does. A multi-byte character split across two reads is not modelled beyond that.
- Concurrency:
  - FreeRTOS and tokio tasks, queues, watch channels and mutexes are modelled one step at a time on sequential state;
  - there is no interleaving, and blocking waits are assumed to return;
  - `lvgl_lock(-1)` is a per-pass flag saying whether the lock was obtained.
- I/O: logging (`ESP_LOG*`, `println!`) and the display update calls (`lvgl_update_*`) are left out; the display call is the `DisplayUpdate` value returned.
- Hardware and link set-up are left out:
  - the panel, touch and LEDC set-up in `main/screen.c`;
  - `lv_port_disp_init` and the flush callback;
  - USB, UART and TinyUSB driver installation;
  - serial reconnection and MQTT options.
- `CONFIG_TINYUSB_CDC_RX_BUFSIZE` and `configTICK_RATE_HZ` are parameters, since their values come from the build configuration.
- The header of the later variant (`fw_screen/main/data.h`) is not part of this model:
  - its timestamps are taken as the doubles the code assigns;
  - its unit fields are unbounded strings, so `strcpy` capacity is not modelled there.
- `add_text_to_status_list` lives in the display code, which is not part of this model; it is taken to append its text to a list.
- Retry loops:
  - the host writers' retry loops (waiting for the connection flag, republishing after a failed publish) are taken to succeed eventually;
  - a write or publish error only re-arms the flag.
- HostBridge.SerialListener.Receive: does not model the `break` out of the drain loop when the MQTT queue is closed (`tx.send` failing). That would leave later lines in the buffer until the next read.
- HostBridge.MqttTask.Poll: the event loop's own reconnect and the reconnection delay are left out, and `Instant`s are natural numbers.
- StrictData.ParseParticulateMatterData: models the corrected parser from the first Finding. It rejects a message whose unit does not fit its `char[8]`, while `main/data.c:273-280` copies the unit past the array.
- StrictData.ParseDataResult: reports the corrected particulate-matter parser's verdict, so a message with an oversized unit yields `PRC_PARSING_ERROR` here.
- StrictData.ParseData: routes to the corrected particulate-matter parser. It does not carry the heap: its log line at `main/data.c:288` allocates the printed tree with `cJSON_Print` and never frees it, one leaked string per message. That leak is the Finding for `main/data.c:288`, modelled apart by `StrictData.LogAllAsWritten` and `StrictData.LogAll`.
- StrictData.OnJsonReceived: routes to the corrected particulate-matter parser.
- UsbCdc.ProcessJsonCommand: reaches the records through the corrected particulate-matter parser.
- TusbCdc.TusbCdc.RxTaskStep: reaches the records through the corrected particulate-matter parser.
- TusbCdc.TusbCdc.TusbWrite: models the corrected writer from the last Finding. It queues what `snprintf` stored, at most 63 characters, while `main/tusb_cdc.c:130-131` queues `snprintf`'s return value.
- LvglUtils.MsToTicks: takes `pdMS_TO_TICKS` to compute `ms * configTICK_RATE_HZ / 1000` in the 32-bit `TickType_t`, as older FreeRTOS kernels define it. Kernels that widen the product to `uint64_t` do not wrap there. The FreeRTOS header is not part of this model, so the wrap of a negative or large `ms` in `LvglUtils.LockTimeoutMeaning` rests on that definition.
- CJson.GetObjectItemFirstMatch: compares whole keys, so keys are taken to hold no NUL. cJSON's `case_insensitive_strcmp` stops at the first NUL, so a key written with an escaped `\u0000` would match differently there.
- TusbCdc.TusbCdc.RxCallback: requires the read to fit the corrected request. The as-written request is covered by the Finding below, not by this method.
- HostBridge.WrittenLineFramed: covers single-line messages only. The MQTT callbacks forward `to_string_pretty` output, which spans lines. The firmware's USB framer passes on only the first of those lines (`{`), so such a message never parses there.
- CJson.Str: a firmware `char` stands for one C byte. `valuestring` is a sequence of characters, and a string the parser returns is taken to hold one character per byte for ASCII text. Byte counts are exact for ASCII strings only, except in `StrictData.FitsUnitBuffer`, which counts UTF-8 bytes.
- TusbCdc.Formatted: formats characters, so its length is the byte count of the C text only for an ASCII message.
- TusbCdc.Snprintf: cuts the text at 63 characters. For a message with non-ASCII characters, `snprintf` cuts at 63 bytes, possibly inside a character, which a sequence of characters cannot express.
- TusbCdc.TusbCdc.TusbWrite: the 63 characters it sends are 63 bytes only for an ASCII message; a 40-character message of two-byte characters is 80 bytes in C, and `snprintf` keeps only its first 63 bytes.
- TusbCdc.LineContents: its 62- and 63-character bounds agree with the 64-byte `data_msg` only for ASCII messages, for the same reason.
- UartUtils.ZeroLengthLeaks: states the leak on a zero-length item. `cJSON_PrintUnformatted` never yields an empty string for a tree, so no corrected member is given.

## Findings

| source | as written | input that shows it | evidently intended | confidence | as-written member | corrected member |
|---|---|---|---|---|---|---|
| main/data.c:273-280 | `strcpy` copies each unit string into a `char[8]` with no length check | an `sps` message whose `mass_density_unit` is `"ug/m3/pm1"` (nine characters, ten bytes with the NUL) | a unit that does not fit is rejected as a schema error | not executed | StrictData.LongUnitOverflowsAsWritten | StrictData.DecodeParticulateMatter |
| main/data.c:35-36 | `mass_density_pm_1_0` is assigned twice and `mass_density_pm_4_0` never | a record whose pm4.0 mass density is non-zero keeps it after the default | every field is reset, pm4.0 included | not executed | StrictData.DefaultAsWrittenKeepsPm4_0 | StrictData.ParticulateMatterDataDefault |
| fw_screen/main/data.c:36-37 | the same double assignment in the later variant | a record whose pm4.0 mass density is non-zero keeps it after the default | every field is reset, pm4.0 included | not executed | TolerantData.DefaultAsWrittenKeepsPm4_0 | TolerantData.ParticulateMatterDataDefault |
| main/tusb_cdc.c:38-39 | the read asks for `BUFSIZE * 4` bytes into `rx_buf[BUFSIZE + 1]` | a read returning `BUFSIZE + 1` non-NUL bytes fills the message buffer with no NUL, and `cJSON_Parse` reads past it; a longer read overruns `rx_buf` | ask for `BUFSIZE` bytes, leaving room for the NUL | not executed | TusbCdc.RxRequestAsWrittenOverflows | TusbCdc.MessageText |
| main/data.c:288 | `cJSON_Print(json)` allocates the printed tree for the log line, and the string is never freed | a stream of n messages whose printing succeeds leaves n more strings live | free the printed string after logging it | not executed | StrictData.LogLeaksAsWritten | StrictData.LogFreesPrinted |
| main/tusb_cdc.c:130-131 | the length queued is `snprintf`'s return value, the length of the untruncated text | a message of 64 characters gives 65, past the 64-byte `data_msg` | queue only the characters stored, at most 63 | not executed | TusbCdc.WriteLengthAsWrittenOverreads | TusbCdc.LineContents |
