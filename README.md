# JMSG UDP gateway: translator, UDP manager and RPi demo topic plugin

This project models the core of the cFS `jmsg_udp` application in Dafny. The
application is a gateway between the cFE software bus and JSON messages
carried in UDP datagrams. The model covers three parts, and the properties
it proves are about that model.

- **The JSON-message translator (`JMsgTrans`).** An inbound datagram has the
  form `<topic>:<json>`. The translator:
  - splits it at the first colon;
  - copies the topic (colon included) into a fixed buffer;
  - scans the topic table in plugin-id order for the first entry whose name
    is a prefix of the topic;
  - calls that entry's JSON-to-bus converter with the payload and its
    length;
  - when the converter succeeds, checksums a command or timestamps
    telemetry, transmits the message, and counts it valid;
  - counts a message with no colon or no match as invalid;
  - counts a conversion failure as neither.

  The topic table (a library outside this model) is a sequence of slots
  indexed by plugin id. Converters are function values. Converter calls
  and transmits are kept in a ghost trace.
- **The UDP manager (`JMsgUdp`).** It covers:
  - the Rx socket's connected flag after construction;
  - one step of the Rx child task (receive into the Rx buffer, count,
    then translate; or count an error; or wait);
  - one iteration of the Tx child task, over the translator's outbound stub;
  - the subscription callback;
  - status reset;
  - the start and stop test commands.
- **The Raspberry Pi demo topic plugin (`UdpTopicRpiDemo`).** It covers:
  - all-or-nothing loading of the four JSON objects into the telemetry
    payload, with a zero payload on failure;
  - the two converters: their output pointers and their counters;
  - the self-test data generator.

  The CJSON loader and `sprintf` are function parameters.

Counters are cFE `uint32`s and wrap from `0xFFFF_FFFF` to 0 (`Base.Inc32`).
The payload length is a `uint16` (`Base.ToUint16`).

## Model

| member | source | states |
|---|---|---|
| Base.Inc32 | fsw/src/jmsg_trans.c:201 | A counter increment adds one below the uint32 maximum and wraps to 0 at it. |
| Base.ToUint16 | fsw/src/jmsg_trans.c:104 | The payload length stored in a uint16 is below 65536 and equals the true length whenever that fits. |
| JMsgTrans.TopicTable.GetTopic | fsw/src/jmsg_trans.c:111-112 | A table entry exists only for ids in [MIN, MAX); inside that range it is the slot's content, which may be NULL. |
| JMsgTrans.StrChr | fsw/src/jmsg_trans.c:96-98 | strchr gives NULL exactly when the character is absent. Otherwise it gives the first index holding the character. |
| JMsgTrans.StrChrAt | fsw/src/jmsg_trans.c:96 | Any index that holds the character and has no earlier occurrence is the one strchr returns. |
| JMsgTrans.StrNCmpEq | fsw/src/jmsg_trans.c:122 | `strncmp(a, b, n) == 0` on C strings holds exactly when both strings reach (or both stop at) the same position within the first n characters and agree character by character up to there. |
| JMsgTrans.EntryMatches | fsw/src/jmsg_trans.c:111-122 | An entry matches exactly when its slot is occupied, its name is shorter than the maximum, and its whole name is a prefix of the topic buffer (strncmp over the name's length). Only ids in [MIN, MAX) can match. |
| JMsgTrans.FirstMatchFrom | fsw/src/jmsg_trans.c:109-142 | Searching from an id finds a matching id at or after it with no match in between. When it finds none, no id from there to MAX matches. |
| JMsgTrans.FirstMatch | fsw/src/jmsg_trans.c:109-142 | The lookup finds an id exactly when some entry matches, and that id is the first match in id order. |
| JMsgTrans.FirstMatchUnique | fsw/src/jmsg_trans.c:109-142 | Any id that matches, with no earlier id matching, is the id the lookup returns. |
| JMsgTrans.ScanTopicTable | fsw/src/jmsg_trans.c:109-142 | The while loop reports found exactly when some entry matches. On a match the id is left at the first match; otherwise it ends at MAX. |
| JMsgTrans.TopicName | fsw/src/jmsg_trans.c:96-103 | The topic text is a non-empty prefix of the message that ends in the first colon and contains no other colon. |
| JMsgTrans.Translate | fsw/src/jmsg_trans.c:75-206 | Outcomes: NoColon iff the message has no colon; NoTopic only when no entry matches. Found iff there is a colon and some entry matches; then the converter is the first match's, the payload is the text after the colon, and the length is strlen minus the topic length, as a uint16. Delivered iff the converter returns a message, with a checksum for a command id and a timestamp otherwise. |
| JMsgTrans.TranslateGuarded | fsw/src/jmsg_trans.c:96-103 | The corrected translation rejects a datagram exactly when it has a colon and its topic does not fit the topic buffer. Otherwise it behaves as the code does. |
| JMsgTrans.StampFor | fsw/src/jmsg_trans.c:158-167 | A message whose id is a command id is checksummed; every other message is timestamped. |
| JMsgTrans.EventsOf | fsw/src/jmsg_trans.c:150-172 | Effects appear exactly when a topic matched. A conversion failure leaves only the converter call, with the payload and its length. A delivered message leaves that call followed by one transmit of the converter's message with its checksum or timestamp. |
| JMsgTrans.CountersAfter | fsw/src/jmsg_trans.c:173-202 | ValidJMsgCnt rises only on delivery. InvalidJMsgCnt rises exactly when no topic matched (`!MsgFound`). A conversion failure leaves every counter as it was, and the bus-message counters never change. |
| JMsgTrans.CopyTopicName | fsw/src/jmsg_trans.c:102-103 | strncpy and the terminator write leave the first n characters of the message, NUL-terminated, in a fresh topic buffer. |
| JMsgTrans.Translator.constructor | fsw/src/jmsg_trans.c:53-60 | All four counters start at zero. |
| JMsgTrans.Translator.ProcessJMsg | fsw/src/jmsg_trans.c:75-206 | Given a C string whose topic fits the buffer: it returns MsgFound; it raises ValidJMsgCnt on delivery, raises InvalidJMsgCnt on no colon or no match, and changes neither on conversion failure. It calls the converter once and only on a match, and transmits only on success. |
| JMsgTrans.Translator.ProcessJMsgGuarded | fsw/src/jmsg_trans.c:96-104 | The corrected entry point does the same for every C string, and counts an oversized topic invalid without scanning or converting. |
| JMsgTrans.Translator.ProcessSbMsg | fsw/src/jmsg_trans.c:216-226 | The outbound stub always reports failure. |
| JMsgTrans.Translator.ResetStatus | fsw/src/jmsg_trans.c:235-243 | All four translator counters are zero afterwards. |
| JMsgTransProps.SplitAtColon | fsw/src/jmsg_trans.c:96-104 | For a colon-free topic, `topic:payload` splits into topic plus colon and exactly the payload. |
| JMsgTransProps.NoEarlierMatch | fsw/src/jmsg_trans.c:109-142 | In a table where no name prefixes another, no slot before a registered name's slot matches that name's topic. |
| JMsgTransProps.RoutesToRegisteredTopic | fsw/src/jmsg_trans.c:96-152 | In a prefix-free table, `name:payload` for a registered name of at most maxLen-2 characters fits the topic buffer. The code and the corrected entry point then agree, and both reach that name's converter with the payload and its length. |
| JMsgTransProps.NameAtLimitNeverFits | fsw/src/jmsg_trans.c:96-116 | A registered name of exactly maxLen-1 characters passes the length check, yet no datagram `name:payload` fits the topic buffer. |
| JMsgTransProps.UnregisteredTopicRejected | fsw/src/jmsg_trans.c:184-202 | A topic that no registered name prefixes gives NoTopic. No converter runs, nothing is transmitted, and only InvalidJMsgCnt rises. |
| JMsgTransProps.DemoTableRejects | fsw/src/jmsg_trans.c:109-142 | With only the demo topic registered, a topic that differs from "basecamp/rpi/demo" in its first ten characters finds no entry. |
| JMsgTransProps.TestTopicNotInDemoTable | fsw/src/jmsg_trans.c:184-189 | With only the demo topic registered, `basecamp/test:{}` ends as NoTopic for `basecamp/test:`. |
| JMsgTransProps.ShorterNameCapturesLongerTopic | fsw/src/jmsg_trans.c:114-125 | Because the comparison stops at the registered name's length, an earlier name that prefixes a later one captures the later one's messages. When the later name is at most maxLen-2 characters the topic fits, and the corrected entry point is captured too. |
| JMsgTransProps.EmptyNameMatchesAnyTopic | fsw/src/jmsg_trans.c:114-125 | An empty registered name at the first id matches every message that has a colon. The corrected entry point does too whenever the topic fits. |
| JMsgTransProps.TopicBufferOverflow | fsw/src/jmsg_trans.c:96-104 | A C string of maxLen-1 characters followed by a colon passes the colon check, yet its topic text alone fills the buffer, so the terminator lands past the end. |
| JMsgUdp.ConfigSubscription | fsw/src/jmsg_udp.c:228-273 | The callback accepts exactly the four subscription options and rejects every other value. |
| JMsgUdp.UdpMgr.constructor | fsw/src/jmsg_udp.c:66-116 | Rx.Connected is true iff the socket both opens and binds. Every Rx/Tx counter, the test state and the translator's counters start at zero. |
| JMsgUdp.UdpMgr.ResetStatus | fsw/src/jmsg_udp.c:136-144 | Rx/Tx MsgCnt and MsgErrCnt become zero. The Connected flags, the test state and the translator's counters do not change. |
| JMsgUdp.CStringAt | fsw/src/jmsg_udp.c:166-167 | A string reader finds nothing exactly when the buffer holds no NUL. Otherwise it finds a C string, followed by a NUL, at the start of the buffer. |
| JMsgUdp.CStringAtHolds | fsw/src/jmsg_udp.c:166-167 | Any NUL-terminated C string at the start of a buffer is the text the reader finds there. |
| JMsgUdp.RecvAsWritten | fsw/src/jmsg_udp.c:159-160 | The receive as written overwrites the front of the 4096-byte buffer with up to 4096 datagram bytes and keeps the rest of the previous contents. |
| JMsgUdp.StaleTailReadBack | fsw/src/jmsg_udp.c:159-167 | As written, a datagram shorter than the text already in the buffer is read back with that text's tail, and never as itself. |
| JMsgUdp.FullDatagramUnterminated | fsw/src/jmsg_udp.c:159-167 | As written, a 4096-byte datagram without a NUL leaves the buffer without a terminator. |
| JMsgUdp.DatagramText | fsw/src/jmsg_udp.c:159-167 | The corrected receive's text is a C string shorter than the buffer and a prefix of the datagram. It is the first 4095 bytes when those hold no NUL (the whole datagram when it is a C string that fits), and otherwise it stops at the first NUL. |
| JMsgUdp.RecvTerminated | fsw/src/jmsg_udp.c:159-167 | The corrected receive keeps the buffer at 4096 bytes, and the reader then finds exactly the datagram's text. |
| JMsgUdp.UdpMgr.ReceiveInto | fsw/src/jmsg_udp.c:159-160 | The copy loop leaves Rx.Buffer as the corrected receive defines it. |
| JMsgUdp.UdpMgr.RxChildTask | fsw/src/jmsg_udp.c:151-184 | Connected with status >= 0: the datagram is received with a terminator and Rx.MsgCnt rises. The datagram's text is then handed once to the corrected entry point, whose outcome is TranslateGuarded's (the code's own outcome whenever the topic fits the topic buffer). Connected with status < 0: Rx.MsgErrCnt rises, and neither the buffer nor the translator changes. Not connected: only a 2000 ms delay. It always returns true. |
| JMsgUdp.UdpMgr.TxChildTaskIteration | fsw/src/jmsg_udp.c:202-214 | Tx.MsgCnt rises only when the bus receive succeeded and ProcessSbMsg reported success. With the stub it never changes. |
| JMsgUdp.UdpMgr.StartTestCmd | fsw/src/jmsg_udp.c:283-295 | TestActive is set, TestId becomes the TEST plugin and TestParam 0. Counters and flags are untouched, and it returns true. |
| JMsgUdp.UdpMgr.StopTestCmd | fsw/src/jmsg_udp.c:305-311 | Only TestActive is cleared, and it returns true. |
| UdpTopicRpiDemo.TestStep | fsw/topic_plugins/rpi_demo/udp_topic_rpi_demo.c:169-188 | Init sets the test data to (1, 2, 3, 100); any other step raises each rate by 1 and Lux by exactly 1. |
| UdpTopicRpiDemo.TestDataAfterSteps | fsw/topic_plugins/rpi_demo/udp_topic_rpi_demo.c:166-189 | After the Init step and n further steps, the test data is exactly (1+n, 2+n, 3+n, 100+n). |
| UdpTopicRpiDemo.RpiDemoPlugin.constructor | fsw/topic_plugins/rpi_demo/udp_topic_rpi_demo.c:45-87 | The object is zeroed, JsonObjCnt is 4 (the table's size), SbMsgId is the id that registration returns, and the telemetry message is initialised with that id. The file-static working buffer is an input and is not cleared. |
| UdpTopicRpiDemo.RpiDemoPlugin.CfeToJson | fsw/topic_plugins/rpi_demo/udp_topic_rpi_demo.c:99-122 | With a formatted length > 0: the output is the instance buffer holding the text, CfeToJsonCnt rises, and it returns true. Otherwise: the output is NullRpiDemoMsg, the count is unchanged, and it returns false. |
| UdpTopicRpiDemo.RpiDemoPlugin.LoadJsonData | fsw/topic_plugins/rpi_demo/udp_topic_rpi_demo.c:209-235 | It succeeds iff the loader reports all JsonObjCnt objects. Then the payload equals the working buffer; otherwise the payload is all zero. The message id is kept. |
| UdpTopicRpiDemo.RpiDemoPlugin.JsonToCfe | fsw/topic_plugins/rpi_demo/udp_topic_rpi_demo.c:136-153 | On a complete load: `*CfeMsg` is the plugin's telemetry message and JsonToCfeCnt rises. Otherwise: `*CfeMsg` is NULL and the count is unchanged. |
| UdpTopicRpiDemo.RpiDemoPlugin.PluginTest | fsw/topic_plugins/rpi_demo/udp_topic_rpi_demo.c:166-200 | Init sets (1, 2, 3, 100), and any other call adds 1 to each field. The telemetry message is transmitted unchanged: the test data never reaches it. |

## Left out

- JMsgUdp.UdpMgr.RxChildTask: the Rx step hands the buffer to the corrected entry point `ProcessJMsgGuarded`, not to the unchecked `JMSG_TRANS_ProcessJMsg` that fsw/src/jmsg_udp.c:167 calls. A datagram whose topic does not fit the topic buffer is therefore counted invalid without a scan, where the code overruns `MsgTopicName` (see Findings) and goes on. For every other datagram the two agree (`JMsgTrans.TranslateGuarded`).
- Sockets are not modelled: open, bind and `recvfrom`. Only their results are inputs.
  - The constructor takes the open and bind outcomes.
  - The Rx step takes the receive status and the datagram.
- JMsgUdp.UdpMgr.RxChildTask: the Rx step receives with the corrected `JMsgUdp.RecvTerminated`, not with the unterminated receive at fsw/src/jmsg_udp.c:159-160 (see Findings). The as-written receive is `JMsgUdp.RecvAsWritten`. The receive status and the datagram's length are separate inputs and are not tied together.
- Event messages (`CFE_EVS_SendEvent`) are left out, as logging only.
- The constructor's test-message subscription is not modelled: `JMsgTestMid`, `CFE_SB_CreatePipe` and `CFE_SB_Subscribe` at fsw/src/jmsg_udp.c:123-125 are bus configuration calls with no effect on the modelled state.
- `CFE_SB_TimeStampMsg` in PluginTest (fsw/topic_plugins/rpi_demo/udp_topic_rpi_demo.c:197) is not modelled: the `transmitted` log records the message as it stands, without its time stamp.
- `OS_TaskDelay` is left out; the Rx step records the delay in a ghost log.
- `CFE_SB_TransmitMsg`, checksum generation and timestamping appear only as trace events (`SbTransmit` with its stamp).
- `CFE_MSG_Init` is reduced to setting the message id and a zero payload (`UdpTopicRpiDemo.RpiDemoPlugin.constructor`). Its header fields (size, type) are not modelled.
- Plugin registration and table registration are not modelled. The id registration returns is a constructor input.
- `JMSG_TOPIC_TBL_RegisterConfigSubscriptionCallback` in the constructor (fsw/src/jmsg_udp.c:82) is not modelled. `JMsgUdp.ConfigSubscription` is modelled as a plain function, and the table library that would call it is outside this model.
- `JMSG_TOPIC_TBL_*` (the topic table library) is not part of this model. It is an abstract slot sequence from MIN to MAX, and `JMSG_TOPIC_TBL_GetJsonToCfe` returns the converter stored in the same slot.
- The `while (true)` loop of `JMSG_UDP_TxChildTask` and the `TestChildTask` loop are long-running threads. One iteration is modelled, and TestChildTask is not modelled at all.
- JMsgUdp.UdpMgr.StartTestCmd: the `CFE_ES_CreateChildTask` call (fsw/src/jmsg_udp.c:290-291) is not modelled. The source spawns a new test task on every call, even while one is already running; the model records only the flags that call sets.
- The values of `JMSG_USR_TopicPlugin_Enum_t_MIN`/`_MAX`/`_TEST` are not part of this model; the table and constructor parameters supply them.
- The values of `JMSG_USR_MAX_TOPIC_NAME_LEN` and of the command/telemetry test on a message id are not part of this model either; constructor parameters supply them.
- `JMsgTrans.Translator.ProcessJMsg`: `MsgTopicNameLen` and `TblTopicNameLen` (fsw/src/jmsg_trans.c:79, 81, 101, 114) are uint16s. The model takes the colon index plus one and the registered name's length as exact. This holds whenever the topic buffer and every registered name are shorter than 65536.
- `CJSON_LoadObjArray` and the `%f`/`%1d` `sprintf` formatting are foreign calls and become function parameters.
  - The formatter is assumed to report its own text length, below 1024, on success.
  - No JSON-to-message round trip is claimed.
- UdpTopicRpiDemo.TestStep, UdpTopicRpiDemo.TestDataAfterSteps: "exactly 1+n" holds for exact reals and unbounded integers only. In single precision `RateZ` stops growing at 2^24, and the int32 `Lux` overflows after about 2^31 steps.
- `UdpTopicRpiDemo.RpiDemoPlugin.PluginTest`: the rates are `float` in the source and exact reals here, and `Lux` is an unbounded integer. Single-precision rounding and the int32 overflow of `Lux++` are not modelled.
- The demo plugin's converters are methods of the plugin object. The translator sees converters as pure function values, so the connection between the two (a converter updating plugin state) is not modelled.
- On a conversion failure ProcessJMsg leaves both counters unchanged (fsw/src/jmsg_trans.c:176-181, 199-204); the model follows the code (`JMsgTrans.CountersAfter`).
- Outbound `topic:json` formatting and subscription toggling have no code beyond the stub and the logging callback, and are not modelled.
- fsw/src/udp_comm.c is the older socket plumbing and is not modelled: it never translates. Its Rx bookkeeping matches the jmsg_udp.c model. Its Tx task raises `Tx.MsgCnt` on every call (fsw/src/udp_comm.c:159), unlike `JMsgUdp.UdpMgr.TxChildTaskIteration`.
- Also not modelled:
  - fsw/src/jmsg_udp_app.c and fsw/src/json_gw_app.c: app lifecycle, INI loading and command dispatch over framework calls;
  - fsw/topic_plugins/jmsg_udp_topic_plugin.c: a fixed sequence of registration calls;
  - python/jmsg_udp.py: a socket test client.

## Findings

| source | as written | input that shows it | evidently intended | confidence | as-written member | corrected member |
|---|---|---|---|---|---|---|
| fsw/src/jmsg_trans.c:96-103 | Only the colon's presence is checked. The topic's length is never compared with the `JMSG_USR_MAX_TOPIC_NAME_LEN` buffer before `strncpy` and the write of the terminator at `MsgTopicName[MsgTopicNameLen]`. | A C string of `JMSG_USR_MAX_TOPIC_NAME_LEN - 1` characters followed by `:`. The topic text fills the whole buffer, and the terminator is written one past its end. A registered name of exactly `JMSG_USR_MAX_TOPIC_NAME_LEN - 1` characters passes the length check at fsw/src/jmsg_trans.c:116, but none of its datagrams fits the buffer (`JMsgTransProps.NameAtLimitNeverFits`). | A topic that does not fit the buffer is rejected and counted invalid. | not executed | JMsgTransProps.TopicBufferOverflow | JMsgTrans.Translator.ProcessJMsgGuarded |
| fsw/src/jmsg_udp.c:159-167 | The whole `Rx.Buffer` is offered to `OS_SocketRecvFrom`, and no terminator is written after the received bytes before the buffer is read as a C string. | After `abc:1234`, the datagram `abc:9` is read as `abc:9234`. A 4096-byte datagram with no NUL leaves no terminator at all. | At most 4095 bytes are received, and a NUL is written after them. | not executed | JMsgUdp.StaleTailReadBack | JMsgUdp.RecvTerminated |
