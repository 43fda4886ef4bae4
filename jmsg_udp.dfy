/**
 * The UDP manager (JMSG_UDP): the receive socket's connected flag and the
 * Rx/Tx status counters, one step of the Rx child task, one iteration of
 * the Tx child task, the subscription callback and the test commands.
 *
 * Socket, bus-pipe and task-delay calls are foreign: their results are
 * parameters, and the delays the Rx task takes are kept in a ghost log.
 */
module JMsgUdp {

  import opened Base
  import opened JMsgTrans

  /** OS_TaskDelay interval of the Rx task while the socket is not connected (ms). */
  const RxRetryDelayMs: nat := 2000

  /**
   * JMSG_TOPIC_TBL_SubscriptionOptEnum_t: the four options the callback
   * handles, and any other value the enum can carry.
   */
  datatype SubscriptionOpt = SubSb | SubJMsg | UnsubSb | UnsubJMsg | OtherOpt(code: int)

  /**
   * ConfigSubscription: the callback accepts each of the four subscription
   * options (it only logs them) and rejects every other value.
   */
  function ConfigSubscription(topic: Topic, configOpt: SubscriptionOpt): (retStatus: bool)
    ensures retStatus <==> configOpt in {SubSb, SubJMsg, UnsubSb, UnsubJMsg}
  {
    match configOpt
    case SubSb => true
    case SubJMsg => true
    case UnsubSb => true
    case UnsubJMsg => true
    case OtherOpt(_) => false
  }

  // ---------------------------------------------------------------------
  // The Rx buffer and what the translator reads from it
  // ---------------------------------------------------------------------

  /**
   * The text a C-string reader finds at the start of `buf`: everything
   * before the first NUL, None when the buffer holds no terminator.
   */
  function CStringAt(buf: seq<char>): (r: Option<string>)
    ensures r.None? <==> '\0' !in buf
    ensures r.Some? ==> IsCString(r.value) && HoldsCString(buf, r.value)
  {
    match StrChr(buf, '\0')
    case None => None
    case Some(i) =>
      assert buf[..i][..i] == buf[..i];
      Some(buf[..i])
  }

  /** A NUL-terminated C string at the start of a buffer is the text a reader finds there. */
  lemma CStringAtHolds(buf: seq<char>, t: string)
    requires IsCString(t) && HoldsCString(buf, t)
    ensures CStringAt(buf) == Some(t)
  {
    assert buf[..|t|] == t;
    StrChrAt(buf, '\0', |t|);
  }

  /**
   * OS_SocketRecvFrom into Rx.Buffer as written: up to sizeof(Buffer)
   * bytes of the datagram overwrite the front of the buffer, the rest of
   * the buffer keeps the previous contents, and nothing is terminated.
   */
  function RecvAsWritten(buf: seq<char>, dgram: seq<char>): (r: seq<char>)
    requires |buf| == JMsgUdpBufLen
    ensures |r| == JMsgUdpBufLen
    ensures r[..Min(|dgram|, JMsgUdpBufLen)] == dgram[..Min(|dgram|, JMsgUdpBufLen)]
    ensures r[Min(|dgram|, JMsgUdpBufLen)..] == buf[Min(|dgram|, JMsgUdpBufLen)..]
  {
    var n := Min(|dgram|, JMsgUdpBufLen);
    dgram[..n] + buf[n..]
  }

  /**
   * As written, a datagram shorter than the text already in the buffer is
   * read back with that text's tail: after `abc:1234` the datagram `abc:9`
   * is translated as `abc:9234`.
   */
  lemma StaleTailReadBack(buf: seq<char>, dgram: string, k: nat)
    requires |buf| == JMsgUdpBufLen && IsCString(dgram)
    requires |dgram| < k < JMsgUdpBufLen && '\0' !in buf[|dgram|..k] && buf[k] == '\0'
    ensures CStringAt(RecvAsWritten(buf, dgram)) == Some(dgram + buf[|dgram|..k])
    ensures CStringAt(RecvAsWritten(buf, dgram)) != Some(dgram)
  {
    var r := RecvAsWritten(buf, dgram);
    var t := dgram + buf[|dgram|..k];
    assert r[..k] == t by {
      assert r[..|dgram|] == dgram;
      assert r[|dgram|..] == buf[|dgram|..];
      assert forall j :: 0 <= j < k ==> r[..k][j] == t[j];
    }
    assert IsCString(t) by {
      assert forall j :: 0 <= j < |t| ==> t[j] != '\0' by {
        assert forall j :: 0 <= j < |dgram| ==> t[j] == dgram[j];
        assert forall j :: |dgram| <= j < k ==> t[j] == buf[|dgram|..k][j - |dgram|];
      }
    }
    assert r[k] == buf[k] by { assert r[|dgram|..][k - |dgram|] == buf[|dgram|..][k - |dgram|]; }
    CStringAtHolds(r, t);
  }

  /**
   * As written, a datagram that fills the whole buffer and holds no NUL
   * leaves no terminator at all: the translator's string reads run past
   * the buffer.
   */
  lemma FullDatagramUnterminated(buf: seq<char>, dgram: string)
    requires |buf| == JMsgUdpBufLen && |dgram| == JMsgUdpBufLen && IsCString(dgram)
    ensures CStringAt(RecvAsWritten(buf, dgram)).None?
  {
    assert RecvAsWritten(buf, dgram) == dgram;
  }

  /**
   * The text the corrected receive leaves for the translator: at most
   * sizeof(Buffer) - 1 bytes of the datagram, cut at an embedded NUL.
   */
  function DatagramText(dgram: seq<char>): (t: string)
    ensures IsCString(t) && |t| < JMsgUdpBufLen && t <= dgram
    ensures IsCString(dgram) && |dgram| < JMsgUdpBufLen ==> t == dgram
    ensures '\0' !in dgram[..Min(|dgram|, JMsgUdpBufLen - 1)] ==> t == dgram[..Min(|dgram|, JMsgUdpBufLen - 1)]
    ensures |t| < Min(|dgram|, JMsgUdpBufLen - 1) ==> dgram[|t|] == '\0'
  {
    var n := Min(|dgram|, JMsgUdpBufLen - 1);
    match StrChr(dgram[..n], '\0')
    case None => dgram[..n]
    case Some(i) =>
      assert dgram[..n][..i] == dgram[..i];
      dgram[..i]
  }

  /**
   * The corrected receive: at most sizeof(Buffer) - 1 bytes, followed by a
   * terminator, so the translator reads exactly the datagram's text.
   */
  function RecvTerminated(buf: seq<char>, dgram: seq<char>): (r: seq<char>)
    requires |buf| == JMsgUdpBufLen
    ensures |r| == JMsgUdpBufLen
    ensures CStringAt(r) == Some(DatagramText(dgram))
  {
    var n := Min(|dgram|, JMsgUdpBufLen - 1);
    var r := dgram[..n] + ['\0'] + buf[n + 1..];
    var t := DatagramText(dgram);
    assert |t| <= n && r[..n] == dgram[..n];
    assert r[..|t|] == t by { assert r[..|t|] == r[..n][..|t|]; }
    assert r[|t|] == '\0' by {
      if |t| < n {
        assert dgram[..n][..|t|] == t;
        assert StrChr(dgram[..n], '\0').Some?;
      }
    }
    CStringAtHolds(r, t);
    r
  }

  /** JMSG_UDP_Class_t: the manager of the Rx and Tx sides. */
  class UdpMgr {
    var rxConnected: bool
    var rxMsgCnt: uint32
    var rxMsgErrCnt: uint32
    var txConnected: bool
    var txMsgCnt: uint32
    var txMsgErrCnt: uint32

    var testActive: bool
    var testId: int
    var testParam: int

    /** JMSG_USR_TopicPlugin_TEST, the plugin id the test command selects. */
    const testPluginId: int

    /** The contained translator (JMsgUdp->JMsgTrans). */
    const jMsgTrans: Translator

    /** Rx.Buffer, the JMSG_UDP_BUF_LEN-character receive buffer. */
    const rxBuffer: array<char>

    /** Every OS_TaskDelay the Rx task has taken, in milliseconds. */
    ghost var delays: seq<nat>

    /**
     * JMSG_UDP_Constructor: zero everything, construct the translator, and
     * mark the Rx socket connected iff it was both opened and bound.
     */
    constructor (socketOpenOk: bool, socketBindOk: bool, maxTopicNameLen: nat,
                 isCommandId: int -> bool, testPluginId: int)
      ensures rxConnected == (socketOpenOk && socketBindOk) && !txConnected
      ensures rxMsgCnt == 0 && rxMsgErrCnt == 0 && txMsgCnt == 0 && txMsgErrCnt == 0
      ensures !testActive && testId == 0 && testParam == 0
      ensures this.testPluginId == testPluginId
      ensures fresh(jMsgTrans)
      ensures jMsgTrans.maxTopicNameLen == maxTopicNameLen && jMsgTrans.isCommandId == isCommandId
      ensures jMsgTrans.Status() == ZeroCounters
      ensures jMsgTrans.trace == [] && jMsgTrans.received == []
      ensures fresh(rxBuffer) && rxBuffer.Length == JMsgUdpBufLen
      ensures forall i :: 0 <= i < rxBuffer.Length ==> rxBuffer[i] == '\0'
      ensures delays == []
    {
      rxBuffer := new char[JMsgUdpBufLen](_ => '\0');
      rxMsgCnt, rxMsgErrCnt, txMsgCnt, txMsgErrCnt := 0, 0, 0, 0;
      txConnected := false;
      testActive, testId, testParam := false, 0, 0;
      this.testPluginId := testPluginId;
      jMsgTrans := new Translator(maxTopicNameLen, isCommandId);
      delays := [];
      rxConnected := false;
      if socketOpenOk {
        if socketBindOk {
          rxConnected := true;
        }
      }
    }

    /** JMSG_UDP_ResetStatus: the four Rx/Tx counters to zero, nothing else. */
    method ResetStatus()
      modifies this
      ensures rxMsgCnt == 0 && rxMsgErrCnt == 0 && txMsgCnt == 0 && txMsgErrCnt == 0
      ensures rxConnected == old(rxConnected) && txConnected == old(txConnected)
      ensures testActive == old(testActive) && testId == old(testId) && testParam == old(testParam)
      ensures delays == old(delays)
      ensures jMsgTrans.Status() == old(jMsgTrans.Status())
    {
      rxMsgCnt, rxMsgErrCnt, txMsgCnt, txMsgErrCnt := 0, 0, 0, 0;
    }

    /**
     * The corrected receive into Rx.Buffer: at most sizeof(Buffer) - 1 bytes
     * of the datagram, then a terminator.
     */
    method ReceiveInto(dgram: seq<char>)
      requires rxBuffer.Length == JMsgUdpBufLen
      modifies rxBuffer
      ensures rxBuffer[..] == RecvTerminated(old(rxBuffer[..]), dgram)
    {
      var n := Min(|dgram|, JMsgUdpBufLen - 1);
      for i := 0 to n
        invariant rxBuffer[..i] == dgram[..i]
        invariant forall j :: i <= j < rxBuffer.Length ==> rxBuffer[j] == old(rxBuffer[j])
      {
        rxBuffer[i] := dgram[i];
      }
      rxBuffer[n] := '\0';
      assert rxBuffer[..] == dgram[..n] + ['\0'] + old(rxBuffer[..])[n + 1..];
    }

    /**
     * One call of JMSG_UDP_RxChildTask.  `recvStatus` is what
     * OS_SocketRecvFrom returned and `dgram` the datagram it delivered;
     * while connected a good receive is counted and the buffer's text
     * translated once, a failed one counted as an error; while not
     * connected the task only waits.  The step always reports true.
     */
    method RxChildTask(tbl: TopicTable, recvStatus: int, dgram: seq<char>) returns (ok: bool)
      requires rxBuffer.Length == JMsgUdpBufLen
      modifies this, jMsgTrans, rxBuffer
      ensures ok
      ensures rxConnected == old(rxConnected) && txConnected == old(txConnected)
      ensures txMsgCnt == old(txMsgCnt) && txMsgErrCnt == old(txMsgErrCnt)
      ensures testActive == old(testActive) && testId == old(testId) && testParam == old(testParam)
      ensures old(rxConnected) && recvStatus >= 0 ==>
                var text := DatagramText(dgram);
                var o := TranslateGuarded(tbl, jMsgTrans.maxTopicNameLen, jMsgTrans.isCommandId, text);
                && rxBuffer[..] == RecvTerminated(old(rxBuffer[..]), dgram)
                && rxMsgCnt == Inc32(old(rxMsgCnt)) && rxMsgErrCnt == old(rxMsgErrCnt)
                && jMsgTrans.received == old(jMsgTrans.received) + [text]
                && jMsgTrans.Status() == CountersAfter(old(jMsgTrans.Status()), o)
                && jMsgTrans.trace == old(jMsgTrans.trace) + EventsOf(o)
                && delays == old(delays)
      ensures old(rxConnected) && recvStatus < 0 ==>
                && rxMsgErrCnt == Inc32(old(rxMsgErrCnt)) && rxMsgCnt == old(rxMsgCnt)
                && rxBuffer[..] == old(rxBuffer[..])
                && unchanged(jMsgTrans)
                && delays == old(delays)
      ensures !old(rxConnected) ==>
                && rxMsgCnt == old(rxMsgCnt) && rxMsgErrCnt == old(rxMsgErrCnt)
                && rxBuffer[..] == old(rxBuffer[..])
                && unchanged(jMsgTrans)
                && delays == old(delays) + [RxRetryDelayMs]
    {
      if rxConnected {
        if recvStatus >= 0 {
          ReceiveInto(dgram);
          rxMsgCnt := Inc32(rxMsgCnt);
          var text := CStringAt(rxBuffer[..]).value;
          var _ := jMsgTrans.ProcessJMsgGuarded(tbl, text);
        } else {
          rxMsgErrCnt := Inc32(rxMsgErrCnt);
        }
      } else {
        delays := delays + [RxRetryDelayMs];
      }
      ok := true;
    }

    /**
     * One iteration of the JMSG_UDP_TxChildTask loop: when the bus receive
     * succeeded the message goes to ProcessSbMsg, and Tx.MsgCnt rises only
     * when that reports success, which the stub never does.
     */
    method TxChildTaskIteration(sbReceiveOk: bool, sbMsg: BusMsg) returns (processed: bool)
      modifies this
      ensures processed ==> sbReceiveOk
      ensures txMsgCnt == if processed then Inc32(old(txMsgCnt)) else old(txMsgCnt)
      ensures !processed
      ensures rxConnected == old(rxConnected) && txConnected == old(txConnected)
      ensures rxMsgCnt == old(rxMsgCnt) && rxMsgErrCnt == old(rxMsgErrCnt) && txMsgErrCnt == old(txMsgErrCnt)
      ensures testActive == old(testActive) && testId == old(testId) && testParam == old(testParam)
      ensures delays == old(delays)
    {
      processed := false;
      if sbReceiveOk {
        processed := jMsgTrans.ProcessSbMsg(sbMsg);
        txMsgCnt := if processed then Inc32(txMsgCnt) else txMsgCnt;
      }
    }

    /** JMSG_UDP_StartTestCmd: activate the test for the TEST plugin with parameter 0. */
    method StartTestCmd() returns (ok: bool)
      modifies this
      ensures ok
      ensures testActive && testId == testPluginId && testParam == 0
      ensures rxConnected == old(rxConnected) && txConnected == old(txConnected)
      ensures rxMsgCnt == old(rxMsgCnt) && rxMsgErrCnt == old(rxMsgErrCnt)
      ensures txMsgCnt == old(txMsgCnt) && txMsgErrCnt == old(txMsgErrCnt)
      ensures delays == old(delays)
    {
      testActive := true;
      testId := testPluginId;
      testParam := 0;
      ok := true;
    }

    /** JMSG_UDP_StopTestCmd: clear the active flag only. */
    method StopTestCmd() returns (ok: bool)
      modifies this
      ensures ok
      ensures !testActive && testId == old(testId) && testParam == old(testParam)
      ensures rxConnected == old(rxConnected) && txConnected == old(txConnected)
      ensures rxMsgCnt == old(rxMsgCnt) && rxMsgErrCnt == old(rxMsgErrCnt)
      ensures txMsgCnt == old(txMsgCnt) && txMsgErrCnt == old(txMsgErrCnt)
      ensures delays == old(delays)
    {
      testActive := false;
      ok := true;
    }
  }
}
