/**
 * The Raspberry Pi demo topic plugin (UDP_TOPIC_RPI_DEMO): converts between
 * the JSON topic "basecamp/rpi/demo" and the plugin's telemetry message,
 * and generates self-test data.
 *
 * The JSON loader (CJSON_LoadObjArray) and the sprintf formatter are
 * foreign functions passed in as parameters.  The three rates are floats
 * in the source; here they are reals that are only copied, zeroed, or (in
 * the test data) stepped by 1.0.
 */
module UdpTopicRpiDemo {

  import opened Base

  /** JMSG_UDP_PLUGIN_RpiDemoTlm_Payload_t. */
  datatype RpiDemoTlm = RpiDemoTlm(rateX: real, rateY: real, rateZ: real, lux: int)

  /** The payload after `memset(..., 0, ...)`. */
  const ZeroTlm: RpiDemoTlm := RpiDemoTlm(0.0, 0.0, 0.0, 0)

  /** The plugin's telemetry message: the header is reduced to its message id. */
  datatype TlmMsg = TlmMsg(msgId: int, payload: RpiDemoTlm)

  /** UDP_TOPIC_RPI_DEMO_TestData_t. */
  datatype TestData = TestData(rateX: real, rateY: real, rateZ: real, lux: int)

  /** One row of the CJSON object table: the JSON query and the data's size. */
  datatype JsonObj = JsonObj(query: string, queryLen: nat, dataLen: nat, float: bool)

  /** JsonTblObjs: the four objects a complete payload must supply. */
  const JsonTblObjs: seq<JsonObj> := [
    JsonObj("rpi-demo.rate-x", |"rpi-demo.rate-x"|, 4, false),
    JsonObj("rpi-demo.rate-y", |"rpi-demo.rate-y"|, 4, false),
    JsonObj("rpi-demo.rate-z", |"rpi-demo.rate-z"|, 4, false),
    JsonObj("rpi-demo.lux", |"rpi-demo.lux"|, 4, true)
  ]

  /** The JSON text CfeToJson hands out when formatting fails. */
  const NullRpiDemoMsg: string :=
    "{\"rpi-demo\":{\"rate-x\": 0.0,\"rate-y\": 0.0,\"rate-z\": 0.0,\"lux\": 0}}"

  /** Size of the plugin's JSON output buffer, `char JsonMsgPayload[1024]`. */
  const JsonMsgPayloadLen: nat := 1024

  /** Where `*CfeMsg` points after JsonToCfe. */
  datatype CfeMsgPtr = NullCfeMsg | TlmMsgPtr

  /** Where `*JsonMsgPayload` points after CfeToJson. */
  datatype JsonPtr = NullRpiDemoMsgPtr | JsonMsgPayloadPtr

  /**
   * CJSON_LoadObjArray over JsonTblObjs: given the payload, its length and
   * the working buffer, the number of objects loaded and the working buffer
   * afterwards.
   */
  type CJsonLoader = (string, nat, RpiDemoTlm) -> (nat, RpiDemoTlm)

  /** What sprintf returns (the count, negative on error) and the text it wrote. */
  datatype SprintfResult = SprintfResult(len: int, text: string)

  /** The `%f ... %1d` formatting of a payload. */
  type Formatter = RpiDemoTlm -> SprintfResult

  /** A sprintf result the output buffer can hold: on success, a C string of the reported length. */
  predicate SprintfFits(r: SprintfResult)
  {
    r.len >= 0 ==> r.len == |r.text| && r.len < JsonMsgPayloadLen && IsCString(r.text)
  }

  /** The self-test generator's step (PluginTest without its transmit). */
  function TestStep(d: TestData, init: bool): (r: TestData)
    ensures init ==> r == TestData(1.0, 2.0, 3.0, 100)
    ensures !init ==> && r.rateX - d.rateX == 1.0 && r.rateY - d.rateY == 1.0
                      && r.rateZ - d.rateZ == 1.0 && r.lux - d.lux == 1
  {
    if init then TestData(1.0, 2.0, 3.0, 100)
    else TestData(d.rateX + 1.0, d.rateY + 1.0, d.rateZ + 1.0, d.lux + 1)
  }

  /** The test data after `n` non-initialising steps from `d`. */
  function TestAfter(d: TestData, n: nat): (r: TestData)
  {
    if n == 0 then d else TestStep(TestAfter(d, n - 1), false)
  }

  /**
   * After initialisation and `n` more test steps, every rate is n above its
   * starting value 1, 2, 3, and Lux is exactly 100 + n.
   */
  lemma {:induction false} TestDataAfterSteps(d: TestData, n: nat)
    ensures TestAfter(TestStep(d, true), n) ==
              TestData(1.0 + n as real, 2.0 + n as real, 3.0 + n as real, 100 + n)
  {
    if n > 0 {
      TestDataAfterSteps(d, n - 1);
    }
  }

  /** UDP_TOPIC_RPI_DEMO_Class_t, together with the file-static working buffer. */
  class RpiDemoPlugin {
    const jsonMsgPayload: array<char>
    var sbMsgId: int
    var tlmMsg: TlmMsg
    var testData: TestData
    var jsonObjCnt: nat
    var cfeToJsonCnt: uint32
    var jsonToCfeCnt: uint32

    /**
     * RpiDemoTlm, the file-static working buffer the JSON loader fills.  It
     * is zero at program load and the constructor does not clear it.
     */
    var rpiDemoTlm: RpiDemoTlm

    /** Every telemetry message the self-test transmitted, in order. */
    ghost var transmitted: seq<TlmMsg>

    ghost predicate Valid()
      reads this
    {
      jsonMsgPayload.Length == JsonMsgPayloadLen && jsonObjCnt == |JsonTblObjs|
    }

    /**
     * UDP_TOPIC_RPI_DEMO_Constructor: zero the object, count the object
     * table, register the plugin (which yields the message id) and
     * initialise the telemetry message with that id.  `workBuffer` is what
     * the file-static working buffer holds at that moment.
     */
    constructor (topicPlugin: int, registeredMsgId: int, workBuffer: RpiDemoTlm)
      ensures Valid() && fresh(jsonMsgPayload)
      ensures jsonObjCnt == 4
      ensures cfeToJsonCnt == 0 && jsonToCfeCnt == 0
      ensures sbMsgId == registeredMsgId
      ensures tlmMsg == TlmMsg(registeredMsgId, ZeroTlm)
      ensures testData == TestData(0.0, 0.0, 0.0, 0)
      ensures rpiDemoTlm == workBuffer
      ensures forall i :: 0 <= i < jsonMsgPayload.Length ==> jsonMsgPayload[i] == '\0'
      ensures transmitted == []
    {
      jsonMsgPayload := new char[JsonMsgPayloadLen](_ => '\0');
      cfeToJsonCnt, jsonToCfeCnt := 0, 0;
      testData := TestData(0.0, 0.0, 0.0, 0);
      rpiDemoTlm := workBuffer;
      jsonObjCnt := |JsonTblObjs|;
      sbMsgId := registeredMsgId;
      tlmMsg := TlmMsg(sbMsgId, ZeroTlm);
      transmitted := [];
    }

    /**
     * CfeToJson: format the message's payload into the instance buffer.  A
     * positive length hands out the buffer and counts the conversion;
     * otherwise the constant NullRpiDemoMsg is handed out and nothing counted.
     */
    method CfeToJson(cfeMsg: TlmMsg, sprintf: Formatter) returns (retStatus: bool, jsonMsg: JsonPtr)
      requires Valid()
      requires SprintfFits(sprintf(cfeMsg.payload))
      modifies this`cfeToJsonCnt, jsonMsgPayload
      ensures Valid()
      ensures retStatus == (sprintf(cfeMsg.payload).len > 0)
      ensures retStatus ==> jsonMsg == JsonMsgPayloadPtr && cfeToJsonCnt == Inc32(old(cfeToJsonCnt))
      ensures !retStatus ==> jsonMsg == NullRpiDemoMsgPtr && cfeToJsonCnt == old(cfeToJsonCnt)
      ensures sprintf(cfeMsg.payload).len >= 0 ==>
                HoldsCString(jsonMsgPayload[..], sprintf(cfeMsg.payload).text)
      ensures sprintf(cfeMsg.payload).len < 0 ==> jsonMsgPayload[..] == old(jsonMsgPayload[..])
    {
      retStatus := false;
      jsonMsg := NullRpiDemoMsgPtr;
      var out := sprintf(cfeMsg.payload);
      if out.len >= 0 {
        for i := 0 to |out.text|
          invariant jsonMsgPayload[..i] == out.text[..i]
          invariant cfeToJsonCnt == old(cfeToJsonCnt)
        {
          jsonMsgPayload[i] := out.text[i];
        }
        jsonMsgPayload[|out.text|] := '\0';
        assert jsonMsgPayload[..][..|out.text|] == out.text;
      }
      var payloadLen := out.len;
      if payloadLen > 0 {
        jsonMsg := JsonMsgPayloadPtr;
        cfeToJsonCnt := Inc32(cfeToJsonCnt);
        retStatus := true;
      }
    }

    /**
     * LoadJsonData: zero the telemetry payload, run the loader into the
     * working buffer, and copy the buffer into the payload only when every
     * object of the table was loaded.
     */
    method LoadJsonData(jsonMsgPayloadText: string, payloadLen: nat, loader: CJsonLoader)
      returns (retStatus: bool)
      requires Valid()
      modifies this`tlmMsg, this`rpiDemoTlm
      ensures Valid()
      ensures rpiDemoTlm == loader(jsonMsgPayloadText, payloadLen, old(rpiDemoTlm)).1
      ensures retStatus == (loader(jsonMsgPayloadText, payloadLen, old(rpiDemoTlm)).0 == jsonObjCnt)
      ensures tlmMsg.msgId == old(tlmMsg.msgId)
      ensures tlmMsg.payload == if retStatus then rpiDemoTlm else ZeroTlm
    {
      retStatus := false;
      tlmMsg := tlmMsg.(payload := ZeroTlm);
      var (objLoadCnt, work) := loader(jsonMsgPayloadText, payloadLen, rpiDemoTlm);
      rpiDemoTlm := work;
      if objLoadCnt == jsonObjCnt {
        tlmMsg := tlmMsg.(payload := rpiDemoTlm);
        retStatus := true;
      }
    }

    /**
     * JsonToCfe: on a complete load `*CfeMsg` points at the telemetry message
     * and the conversion is counted; otherwise `*CfeMsg` is NULL.
     */
    method JsonToCfe(jsonMsgPayloadText: string, payloadLen: nat, loader: CJsonLoader)
      returns (retStatus: bool, cfeMsg: CfeMsgPtr)
      requires Valid()
      modifies this`tlmMsg, this`rpiDemoTlm, this`jsonToCfeCnt
      ensures Valid()
      ensures rpiDemoTlm == loader(jsonMsgPayloadText, payloadLen, old(rpiDemoTlm)).1
      ensures retStatus == (loader(jsonMsgPayloadText, payloadLen, old(rpiDemoTlm)).0 == |JsonTblObjs|)
      ensures retStatus ==> cfeMsg == TlmMsgPtr && jsonToCfeCnt == Inc32(old(jsonToCfeCnt))
      ensures !retStatus ==> cfeMsg == NullCfeMsg && jsonToCfeCnt == old(jsonToCfeCnt)
      ensures tlmMsg == TlmMsg(old(tlmMsg.msgId), if retStatus then rpiDemoTlm else ZeroTlm)
    {
      retStatus := false;
      cfeMsg := NullCfeMsg;
      var loaded := LoadJsonData(jsonMsgPayloadText, payloadLen, loader);
      if loaded {
        cfeMsg := TlmMsgPtr;
        jsonToCfeCnt := Inc32(jsonToCfeCnt);
        retStatus := true;
      }
    }

    /**
     * PluginTest: set (Init) or step the test data, then timestamp and
     * transmit the telemetry message as it stands; the test data never
     * reaches the message.
     */
    method PluginTest(init: bool, param: int)
      modifies this`testData, this`transmitted
      ensures testData == TestStep(old(testData), init)
      ensures tlmMsg == old(tlmMsg) && rpiDemoTlm == old(rpiDemoTlm)
      ensures transmitted == old(transmitted) + [old(tlmMsg)]
    {
      if init {
        testData := TestData(1.0, 2.0, 3.0, 100);
      } else {
        testData := testData.(rateX := testData.rateX + 1.0, rateY := testData.rateY + 1.0,
                              rateZ := testData.rateZ + 1.0, lux := testData.lux + 1);
      }
      transmitted := transmitted + [tlmMsg];
    }
  }
}
