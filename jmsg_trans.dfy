/**
 * The inbound JSON-message translator (JMSG_TRANS).
 *
 * A datagram is text of the form `<topic>:<json>`.  The translator splits
 * it at its first colon, copies the topic (colon included) into a fixed
 * buffer, scans the topic table in plugin-id order for the first entry
 * whose registered name is a prefix of that buffer, hands the payload to
 * the entry's JSON-to-bus converter and, when the converter succeeds,
 * checksums (commands) or timestamps (telemetry) the message and
 * transmits it on the software bus.
 *
 * The topic table belongs to a library outside this model: here it is a
 * sequence of slots indexed by plugin id, each empty or holding a name and
 * a converter; a converter is a function from (payload, length) to a bus
 * message or failure.  Checksum, timestamp and transmit are recorded in a
 * ghost trace.
 */
module JMsgTrans {

  import opened Base

  /** A software-bus message, opaque apart from its message id. */
  datatype BusMsg = BusMsg(msgId: int, bytes: seq<bv8>)

  /** A topic plugin's JSON-to-bus converter: NULL message on failure. */
  type JsonToCfeFn = (string, nat) -> Option<BusMsg>

  /**
   * A registered topic: its network name (a C string, so its length is its
   * strlen) and its converter.
   */
  datatype Topic = Topic(name: CString, jsonToCfe: JsonToCfeFn)

  /**
   * The topic table: slot k holds plugin id minId + k, so the valid ids
   * are minId <= id < MaxId().
   */
  datatype TopicTable = TopicTable(minId: int, slots: seq<Option<Topic>>)
  {
    function MaxId(): (r: int)
    {
      minId + |slots|
    }

    /** JMSG_TOPIC_TBL_GetTopic: NULL for an empty slot or an id out of range. */
    function GetTopic(id: int): (t: Option<Topic>)
      ensures t.Some? ==> minId <= id < MaxId()
      ensures minId <= id < MaxId() ==> t == slots[id - minId]
    {
      if minId <= id < MaxId() then slots[id - minId] else None
    }
  }

  /** What the translator does to a message before transmitting it. */
  datatype Stamp = Checksum | TimeStamp

  /** Observable effects of the translator, in order. */
  datatype TransEvent =
    | JsonToCfeCalled(pluginId: int, payload: string, payloadLen: nat)
    | SbTransmit(msg: BusMsg, stamp: Stamp)

  // ---------------------------------------------------------------------
  // The C library calls the translator relies on
  // ---------------------------------------------------------------------

  /** strchr: the index of the first `c` in `s`, None when there is none. */
  function StrChr(s: string, c: char): (r: Option<nat>)
    ensures r.None? <==> c !in s
    ensures r.Some? ==> r.value < |s| && s[r.value] == c && c !in s[..r.value]
  {
    if |s| == 0 then None
    else if s[0] == c then Some(0)
    else
      match StrChr(s[1..], c)
      case None => None
      case Some(i) =>
        assert s[..i + 1] == [s[0]] + s[1..][..i];
        Some(i + 1)
  }

  /** The first occurrence is unique: whatever index satisfies it is StrChr's. */
  lemma StrChrAt(s: string, c: char, k: nat)
    requires k < |s| && s[k] == c && c !in s[..k]
    ensures StrChr(s, c) == Some(k)
  {
    assert c in s by { assert s[k] == c; }
    var i := StrChr(s, c).value;
    assert forall j :: 0 <= j < k ==> s[..k][j] == s[j];
    assert forall j :: 0 <= j < i ==> s[..i][j] == s[j];
  }

  function Min(a: nat, b: nat): (r: nat)
    ensures r <= a && r <= b && (r == a || r == b)
  {
    if a < b then a else b
  }

  /**
   * `strncmp(a, b, n) == 0` for two C strings: the first n characters agree,
   * where comparing stops at a terminator that both strings share.
   */
  predicate StrNCmpEq(a: string, b: string, n: nat): (r: bool)
    ensures r <==> Min(n, |a|) == Min(n, |b|) && forall i :: 0 <= i < Min(n, |a|) ==> a[i] == b[i]
  {
    a[..Min(n, |a|)] == b[..Min(n, |b|)]
  }

  // ---------------------------------------------------------------------
  // Topic matching and the table scan
  // ---------------------------------------------------------------------

  /**
   * Slot `id` matches the topic buffer: it is occupied, its name is shorter
   * than the maximum topic name length, and the first strlen(name)
   * characters of the buffer equal the name.  That comparison is a prefix
   * test: the whole registered name starts the buffer.
   */
  predicate EntryMatches(tbl: TopicTable, maxLen: nat, id: int, topicName: string): (r: bool)
    ensures r ==> tbl.minId <= id < tbl.MaxId()
    ensures r <==>
              && tbl.GetTopic(id).Some?
              && |tbl.GetTopic(id).value.name| < maxLen
              && tbl.GetTopic(id).value.name <= topicName
  {
    match tbl.GetTopic(id)
    case None => false
    case Some(t) =>
      assert t.name[..Min(|t.name|, |t.name|)] == t.name;
      assert t.name <= topicName ==> topicName[..Min(|t.name|, |topicName|)] == t.name;
      assert StrNCmpEq(t.name, topicName, |t.name|) ==> |topicName[..Min(|t.name|, |topicName|)]| == |t.name|;
      |t.name| < maxLen && StrNCmpEq(t.name, topicName, |t.name|)
  }

  /** `id` is the first matching slot in plugin-id order. */
  ghost predicate IsFirstMatch(tbl: TopicTable, maxLen: nat, topicName: string, id: int)
  {
    && EntryMatches(tbl, maxLen, id, topicName)
    && forall j :: tbl.minId <= j < id ==> !EntryMatches(tbl, maxLen, j, topicName)
  }

  /** The first matching id at or after `id`, None when no later slot matches. */
  function FirstMatchFrom(tbl: TopicTable, maxLen: nat, topicName: string, id: int): (r: Option<int>)
    requires tbl.minId <= id <= tbl.MaxId()
    decreases tbl.MaxId() - id
    ensures r.Some? ==> id <= r.value < tbl.MaxId() && EntryMatches(tbl, maxLen, r.value, topicName)
    ensures r.Some? ==> forall j :: id <= j < r.value ==> !EntryMatches(tbl, maxLen, j, topicName)
    ensures r.None? ==> forall j :: id <= j < tbl.MaxId() ==> !EntryMatches(tbl, maxLen, j, topicName)
  {
    if id == tbl.MaxId() then None
    else if EntryMatches(tbl, maxLen, id, topicName) then Some(id)
    else FirstMatchFrom(tbl, maxLen, topicName, id + 1)
  }

  /** The lookup the translator performs: the first match from the smallest id. */
  function FirstMatch(tbl: TopicTable, maxLen: nat, topicName: string): (r: Option<int>)
    ensures r.Some? <==> exists id :: EntryMatches(tbl, maxLen, id, topicName)
    ensures r.Some? ==> IsFirstMatch(tbl, maxLen, topicName, r.value)
  {
    var r := FirstMatchFrom(tbl, maxLen, topicName, tbl.minId);
    assert r.None? ==> forall id :: !EntryMatches(tbl, maxLen, id, topicName) by {
      if r.None? {
        forall id ensures !EntryMatches(tbl, maxLen, id, topicName) {
          if !(tbl.minId <= id < tbl.MaxId()) {
            assert tbl.GetTopic(id).None?;
          }
        }
      }
    }
    r
  }

  /** Any id that is the first match is the one FirstMatch returns. */
  lemma FirstMatchUnique(tbl: TopicTable, maxLen: nat, topicName: string, id: int)
    requires IsFirstMatch(tbl, maxLen, topicName, id)
    ensures FirstMatch(tbl, maxLen, topicName) == Some(id)
  {
    var r := FirstMatch(tbl, maxLen, topicName);
    assert r.Some?;
    assert tbl.GetTopic(id).Some?;
  }

  /**
   * The scan of the topic table (the `while (!MsgFound && TopicPluginId < MAX)`
   * loop): on a match the id stays at the matched slot, otherwise it ends at MAX.
   */
  method ScanTopicTable(tbl: TopicTable, maxLen: nat, msgTopicName: string)
    returns (msgFound: bool, topicPluginId: int)
    ensures msgFound <==> FirstMatch(tbl, maxLen, msgTopicName).Some?
    ensures msgFound ==> topicPluginId == FirstMatch(tbl, maxLen, msgTopicName).value
    ensures !msgFound ==> topicPluginId == tbl.MaxId()
  {
    msgFound := false;
    topicPluginId := tbl.minId;
    while !msgFound && topicPluginId < tbl.MaxId()
      invariant tbl.minId <= topicPluginId <= tbl.MaxId()
      invariant msgFound ==> topicPluginId < tbl.MaxId()
      invariant FirstMatch(tbl, maxLen, msgTopicName) ==
                  if msgFound then Some(topicPluginId)
                  else FirstMatchFrom(tbl, maxLen, msgTopicName, topicPluginId)
      decreases tbl.MaxId() - topicPluginId, if msgFound then 0 else 1
    {
      var topicTblEntry := tbl.GetTopic(topicPluginId);
      if topicTblEntry.Some? {
        var tblTopicNameLen := |topicTblEntry.value.name|;
        if tblTopicNameLen < maxLen {
          if StrNCmpEq(topicTblEntry.value.name, msgTopicName, tblTopicNameLen) {
            msgFound := true;
          }
        }
        // else: the name is too long; the source logs an error and skips it
      }
      if !msgFound {
        topicPluginId := topicPluginId + 1;
      }
    }
  }

  // ---------------------------------------------------------------------
  // The specification of one inbound message
  // ---------------------------------------------------------------------

  /** The topic buffer's text: every character up to and including the first colon. */
  function TopicName(msgData: string): (t: string)
    requires ':' in msgData
    ensures 0 < |t| <= |msgData| && t <= msgData
    ensures t[|t| - 1] == ':' && ':' !in t[..|t| - 1]
  {
    var c := StrChr(msgData, ':').value;
    assert msgData[..c + 1][..c] == msgData[..c];
    msgData[..c + 1]
  }

  /**
   * The code's unchecked assumption: the topic text and its terminator fit
   * in `char MsgTopicName[JMSG_USR_MAX_TOPIC_NAME_LEN]`.
   */
  predicate TopicFits(maxLen: nat, msgData: string)
  {
    ':' in msgData ==> |TopicName(msgData)| < maxLen
  }

  /** What happens to one inbound message. */
  datatype Outcome =
    | NoColon
    | TopicTooLong
    | NoTopic(topicName: string)
    | ConvertFailed(pluginId: int, payload: string, payloadLen: nat)
    | Delivered(pluginId: int, payload: string, payloadLen: nat, msg: BusMsg, stamp: Stamp)
  {
    /** The value ProcessJMsg returns (MsgFound). */
    predicate Found()
    {
      ConvertFailed? || Delivered?
    }
  }

  /** The checksum/timestamp choice, made from the message id's type. */
  function StampFor(isCommandId: int -> bool, msgId: int): (r: Stamp)
    ensures r == Checksum <==> isCommandId(msgId)
    ensures r == TimeStamp <==> !isCommandId(msgId)
  {
    if isCommandId(msgId) then Checksum else TimeStamp
  }

  /**
   * The outcome of JMSG_TRANS_ProcessJMsg for `msgData` as written: split at
   * the first colon, first-match lookup, conversion, stamp.
   */
  function Translate(tbl: TopicTable, maxLen: nat, isCommandId: int -> bool, msgData: string): (o: Outcome)
    ensures o.NoColon? <==> ':' !in msgData
    ensures !o.TopicTooLong?
    ensures o.NoTopic? ==>
              ':' in msgData && o.topicName == TopicName(msgData) &&
              forall id :: !EntryMatches(tbl, maxLen, id, TopicName(msgData))
    ensures o.Found() <==>
              ':' in msgData && exists id :: EntryMatches(tbl, maxLen, id, TopicName(msgData))
    ensures o.Found() ==>
              && IsFirstMatch(tbl, maxLen, TopicName(msgData), o.pluginId)
              && o.payload == msgData[|TopicName(msgData)|..]
              && o.payloadLen == ToUint16(|msgData| - |TopicName(msgData)|)
    ensures o.Found() ==>
              (o.Delivered? <==>
                 tbl.GetTopic(o.pluginId).value.jsonToCfe(o.payload, o.payloadLen).Some?)
    ensures o.Delivered? ==>
              && Some(o.msg) == tbl.GetTopic(o.pluginId).value.jsonToCfe(o.payload, o.payloadLen)
              && o.stamp == StampFor(isCommandId, o.msg.msgId)
  {
    if ':' !in msgData then NoColon
    else
      var topicName := TopicName(msgData);
      match FirstMatch(tbl, maxLen, topicName)
      case None => NoTopic(topicName)
      case Some(id) =>
        var payload := msgData[|topicName|..];
        var payloadLen := ToUint16(|msgData| - |topicName|);
        match tbl.GetTopic(id).value.jsonToCfe(payload, payloadLen)
        case None => ConvertFailed(id, payload, payloadLen)
        case Some(m) => Delivered(id, payload, payloadLen, m, StampFor(isCommandId, m.msgId))
  }

  /** The corrected translation: a topic that does not fit the buffer is rejected. */
  function TranslateGuarded(tbl: TopicTable, maxLen: nat, isCommandId: int -> bool, msgData: string): (o: Outcome)
    ensures o.TopicTooLong? <==> ':' in msgData && |TopicName(msgData)| >= maxLen
    ensures !o.TopicTooLong? ==> o == Translate(tbl, maxLen, isCommandId, msgData)
  {
    if TopicFits(maxLen, msgData) then Translate(tbl, maxLen, isCommandId, msgData) else TopicTooLong
  }

  /** The effects an outcome leaves in the trace. */
  function EventsOf(o: Outcome): (r: seq<TransEvent>)
    ensures r == [] <==> !o.Found()
    ensures o.ConvertFailed? ==> r == [JsonToCfeCalled(o.pluginId, o.payload, o.payloadLen)]
    ensures o.Delivered? ==>
              r == [JsonToCfeCalled(o.pluginId, o.payload, o.payloadLen), SbTransmit(o.msg, o.stamp)]
  {
    match o
    case ConvertFailed(id, p, n) => [JsonToCfeCalled(id, p, n)]
    case Delivered(id, p, n, m, s) => [JsonToCfeCalled(id, p, n), SbTransmit(m, s)]
    case _ => []
  }

  /** The translator's four status counters. */
  datatype Counters = Counters(validJMsg: uint32, invalidJMsg: uint32, validSbMsg: uint32, invalidSbMsg: uint32)

  const ZeroCounters: Counters := Counters(0, 0, 0, 0)

  /**
   * Counter bookkeeping: a delivered message is valid, a message with no
   * match is invalid, and a conversion failure counts as neither.
   */
  function CountersAfter(c: Counters, o: Outcome): (r: Counters)
    ensures r.validJMsg == if o.Delivered? then Inc32(c.validJMsg) else c.validJMsg
    ensures r.invalidJMsg == if o.Found() then c.invalidJMsg else Inc32(c.invalidJMsg)
    ensures r.validSbMsg == c.validSbMsg && r.invalidSbMsg == c.invalidSbMsg
    ensures o.ConvertFailed? ==> r == c
  {
    if o.Delivered? then c.(validJMsg := Inc32(c.validJMsg))
    else if o.Found() then c
    else c.(invalidJMsg := Inc32(c.invalidJMsg))
  }

  // ---------------------------------------------------------------------
  // The translator object
  // ---------------------------------------------------------------------

  /**
   * `strncpy(MsgTopicName, MsgData, n)` followed by `MsgTopicName[n] = '\0'`
   * into a fresh topic buffer of `size` characters.
   */
  method CopyTopicName(msgData: string, n: nat, size: nat) returns (msgTopicName: array<char>)
    requires n <= |msgData| && n < size
    ensures fresh(msgTopicName) && msgTopicName.Length == size
    ensures HoldsCString(msgTopicName[..], msgData[..n])
  {
    msgTopicName := new char[size];
    var k := 0;
    while k < n
      invariant 0 <= k <= n
      invariant msgTopicName[..k] == msgData[..k]
    {
      msgTopicName[k] := msgData[k];
      k := k + 1;
    }
    msgTopicName[n] := '\0';
    assert msgTopicName[..][..n] == msgData[..n];
  }

  class Translator {
    /** JMSG_USR_MAX_TOPIC_NAME_LEN, the size of the topic buffer. */
    const maxTopicNameLen: nat
    /** The message-id type query: does this id denote a command? */
    const isCommandId: int -> bool

    var validJMsgCnt: uint32
    var invalidJMsgCnt: uint32
    var validSbMsgCnt: uint32
    var invalidSbMsgCnt: uint32

    /** Converter calls and bus transmits, in order. */
    ghost var trace: seq<TransEvent>
    /** Every message handed to the (guarded) inbound entry point. */
    ghost var received: seq<string>

    function Status(): Counters
      reads this
    {
      Counters(validJMsgCnt, invalidJMsgCnt, validSbMsgCnt, invalidSbMsgCnt)
    }

    /** JMSG_TRANS_Constructor: the whole object is zeroed. */
    constructor (maxTopicNameLen: nat, isCommandId: int -> bool)
      ensures this.maxTopicNameLen == maxTopicNameLen && this.isCommandId == isCommandId
      ensures Status() == ZeroCounters
      ensures trace == [] && received == []
    {
      this.maxTopicNameLen := maxTopicNameLen;
      this.isCommandId := isCommandId;
      validJMsgCnt, invalidJMsgCnt, validSbMsgCnt, invalidSbMsgCnt := 0, 0, 0, 0;
      trace, received := [], [];
    }

    /**
     * JMSG_TRANS_ProcessJMsg as written.  The code checks only that a colon
     * exists before it writes the terminator at MsgTopicName[colon + 1], so
     * the topic must fit the buffer: TopicFits is its caller's obligation.
     */
    method ProcessJMsg(tbl: TopicTable, msgData: string) returns (msgFound: bool)
      requires IsCString(msgData)
      requires TopicFits(maxTopicNameLen, msgData)
      modifies this
      ensures var o := Translate(tbl, maxTopicNameLen, isCommandId, msgData);
              && msgFound == o.Found()
              && Status() == CountersAfter(old(Status()), o)
              && trace == old(trace) + EventsOf(o)
      ensures received == old(received)
    {
      ghost var o := Translate(tbl, maxTopicNameLen, isCommandId, msgData);
      msgFound := false;
      var msgPayload := StrChr(msgData, ':');
      if msgPayload.Some? {
        var msgTopicNameLen := msgPayload.value + 1;  // past the colon
        var msgTopicName := CopyTopicName(msgData, msgTopicNameLen, maxTopicNameLen);
        var payload := msgData[msgTopicNameLen..];
        var msgPayloadLen := ToUint16(|msgData| - msgTopicNameLen);
        assert msgTopicName[..msgTopicNameLen] == TopicName(msgData);

        var topicPluginId;
        msgFound, topicPluginId := ScanTopicTable(tbl, maxTopicNameLen, msgTopicName[..msgTopicNameLen]);
        assert !msgFound ==> o == NoTopic(TopicName(msgData));
        if msgFound {
          var jsonToCfe := tbl.GetTopic(topicPluginId).value.jsonToCfe;
          trace := trace + [JsonToCfeCalled(topicPluginId, payload, msgPayloadLen)];
          var cfeMsg := jsonToCfe(payload, msgPayloadLen);
          if cfeMsg.Some? {
            var stamp := StampFor(isCommandId, cfeMsg.value.msgId);
            trace := trace + [SbTransmit(cfeMsg.value, stamp)];
            validJMsgCnt := Inc32(validJMsgCnt);
            assert o == Delivered(topicPluginId, payload, msgPayloadLen, cfeMsg.value, stamp);
          } else {
            assert o == ConvertFailed(topicPluginId, payload, msgPayloadLen);
          }
        }
      }
      if !msgFound {
        invalidJMsgCnt := Inc32(invalidJMsgCnt);
      }
    }

    /**
     * The inbound entry point with the missing length check added: a topic
     * that does not fit the buffer is counted invalid and goes no further.
     */
    method ProcessJMsgGuarded(tbl: TopicTable, msgData: string) returns (msgFound: bool)
      requires IsCString(msgData)
      modifies this
      ensures var o := TranslateGuarded(tbl, maxTopicNameLen, isCommandId, msgData);
              && msgFound == o.Found()
              && Status() == CountersAfter(old(Status()), o)
              && trace == old(trace) + EventsOf(o)
      ensures received == old(received) + [msgData]
    {
      received := received + [msgData];
      if TopicFits(maxTopicNameLen, msgData) {
        msgFound := ProcessJMsg(tbl, msgData);
      } else {
        msgFound := false;
        invalidJMsgCnt := Inc32(invalidJMsgCnt);
      }
    }

    /** JMSG_TRANS_ProcessSbMsg: a stub that converts nothing and reports failure. */
    method ProcessSbMsg(msg: BusMsg) returns (retStatus: bool)
      ensures !retStatus
    {
      retStatus := false;
    }

    /** JMSG_TRANS_ResetStatus: all four counters to zero, nothing else. */
    method ResetStatus()
      modifies this
      ensures Status() == ZeroCounters
      ensures trace == old(trace) && received == old(received)
    {
      validJMsgCnt, invalidJMsgCnt, validSbMsgCnt, invalidSbMsgCnt := 0, 0, 0, 0;
    }
  }
}
