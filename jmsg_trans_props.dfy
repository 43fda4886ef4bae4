/**
 * Properties of the inbound translation: where a `<topic>:<payload>`
 * datagram is routed, what the prefix comparison lets through, and the
 * datagram that overruns the topic buffer of the code as written.
 */
module JMsgTransProps {

  import opened Base
  import opened JMsgTrans

  /** The datagram `topic:payload` splits at the colon after `topic`. */
  lemma SplitAtColon(topic: string, payload: string)
    requires ':' !in topic
    ensures ':' in topic + ":" + payload
    ensures TopicName(topic + ":" + payload) == topic + ":"
    ensures (topic + ":" + payload)[|topic| + 1..] == payload
  {
    var msg := topic + ":" + payload;
    assert msg[..|topic|] == topic;
    assert msg[|topic|] == ':';
    StrChrAt(msg, ':', |topic|);
    assert msg[..|topic| + 1] == topic + ":";
    assert msg[|topic| + 1..] == payload;
  }

  /**
   * No registered name is a prefix of another one's (what the registry is
   * meant to guarantee; nothing in the translator checks it).
   */
  ghost predicate PrefixFree(tbl: TopicTable)
  {
    forall i, j ::
      && tbl.GetTopic(i).Some? && tbl.GetTopic(j).Some? && i != j
      ==> !(tbl.GetTopic(i).value.name <= tbl.GetTopic(j).value.name)
  }

  /**
   * In a prefix-free table, no slot before a registered name's slot matches
   * that name followed by a colon.
   */
  lemma NoEarlierMatch(tbl: TopicTable, maxLen: nat, name: string, id: int)
    requires PrefixFree(tbl)
    requires ':' !in name
    requires tbl.GetTopic(id).Some? && tbl.GetTopic(id).value.name == name
    ensures forall j :: tbl.minId <= j < id ==> !EntryMatches(tbl, maxLen, j, name + ":")
  {
    var topic := name + ":";
    forall j | tbl.minId <= j < id
      ensures !EntryMatches(tbl, maxLen, j, topic)
    {
      if tbl.GetTopic(j).Some? {
        var other := tbl.GetTopic(j).value.name;
        if |other| <= |name| {
          assert other <= topic ==> other <= name by { assert topic[..|name|] == name; }
        } else {
          assert other <= topic ==> name <= other by { assert other <= topic ==> other == topic; }
        }
      }
    }
  }

  /**
   * In a prefix-free table, `name:payload` for a registered name (without a
   * colon, and short enough that the name, colon and terminator fit the
   * topic buffer) fits that buffer and reaches that name's converter with
   * the payload and its length, on the code's path and the corrected one.
   */
  lemma RoutesToRegisteredTopic(
      tbl: TopicTable, maxLen: nat, isCommandId: int -> bool, name: string, payload: string, id: int)
    requires PrefixFree(tbl)
    requires ':' !in name && |name| + 1 < maxLen
    requires tbl.GetTopic(id).Some? && tbl.GetTopic(id).value.name == name
    ensures TopicFits(maxLen, name + ":" + payload)
    ensures TranslateGuarded(tbl, maxLen, isCommandId, name + ":" + payload)
            == Translate(tbl, maxLen, isCommandId, name + ":" + payload)
    ensures var o := Translate(tbl, maxLen, isCommandId, name + ":" + payload);
            && o.Found() && o.pluginId == id
            && o.payload == payload && o.payloadLen == ToUint16(|payload|)
  {
    var topic := name + ":";
    SplitAtColon(name, payload);
    NoEarlierMatch(tbl, maxLen, name, id);
    FirstMatchUnique(tbl, maxLen, topic, id);
    assert |name + ":" + payload| - |topic| == |payload|;
  }

  /**
   * A topic that no registered name prefixes is rejected: no converter runs
   * and the message counts as invalid.
   */
  lemma UnregisteredTopicRejected(
      tbl: TopicTable, maxLen: nat, isCommandId: int -> bool, topic: string, payload: string, c: Counters)
    requires ':' !in topic
    requires forall id :: tbl.GetTopic(id).Some? ==> !(tbl.GetTopic(id).value.name <= topic + ":")
    ensures var o := Translate(tbl, maxLen, isCommandId, topic + ":" + payload);
            && o == NoTopic(topic + ":")
            && CountersAfter(c, o) == c.(invalidJMsg := Inc32(c.invalidJMsg))
            && EventsOf(o) == []
  {
    SplitAtColon(topic, payload);
    assert forall id :: !EntryMatches(tbl, maxLen, id, topic + ":");
  }

  /** The demo registry: one topic, "basecamp/rpi/demo", at the first plugin id. */
  function DemoTable(minId: int, jsonToCfe: JsonToCfeFn): (tbl: TopicTable)
    ensures tbl.GetTopic(minId) == Some(Topic("basecamp/rpi/demo", jsonToCfe))
    ensures forall id :: id != minId ==> tbl.GetTopic(id).None?
  {
    TopicTable(minId, [Some(Topic("basecamp/rpi/demo", jsonToCfe))])
  }

  /**
   * A topic that differs from "basecamp/rpi/demo" within its first ten
   * characters finds no entry in the demo registry.
   */
  lemma DemoTableRejects(
      minId: int, jsonToCfe: JsonToCfeFn, maxLen: nat, isCommandId: int -> bool, topic: string, payload: string)
    requires ':' !in topic && |topic| >= 10 && topic[..10] != "basecamp/r"
    ensures Translate(DemoTable(minId, jsonToCfe), maxLen, isCommandId, topic + ":" + payload)
            == NoTopic(topic + ":")
  {
    assert "basecamp/rpi/demo"[..10] == "basecamp/r";
    assert (topic + ":")[..10] == topic[..10];
    UnregisteredTopicRejected(DemoTable(minId, jsonToCfe), maxLen, isCommandId, topic, payload, ZeroCounters);
  }

  /** `basecamp/test:{}` against the demo registry finds no topic. */
  lemma TestTopicNotInDemoTable(
      minId: int, jsonToCfe: JsonToCfeFn, maxLen: nat, isCommandId: int -> bool, msgData: string)
    requires msgData == "basecamp/test:{}"
    ensures Translate(DemoTable(minId, jsonToCfe), maxLen, isCommandId, msgData) == NoTopic(msgData[..14])
  {
    var topic, payload := msgData[..13], msgData[14..];
    assert msgData == topic + ":" + payload;
    assert ':' !in topic && topic[..10] == "basecamp/t";
    DemoTableRejects(minId, jsonToCfe, maxLen, isCommandId, topic, payload);
  }

  /**
   * The comparison covers only the registered name's length: when a name
   * (say "basecamp/rpi") is registered before a longer one it prefixes (say
   * "basecamp/rpi/demo"), messages for the longer topic go to the first.
   */
  lemma ShorterNameCapturesLongerTopic(
      minId: int, f: JsonToCfeFn, g: JsonToCfeFn, maxLen: nat, isCommandId: int -> bool,
      shortName: CString, longName: CString, payload: string)
    requires shortName <= longName && ':' !in longName && |longName| + 1 < maxLen
    ensures TopicFits(maxLen, longName + ":" + payload)
    ensures var tbl := TopicTable(minId, [Some(Topic(shortName, f)), Some(Topic(longName, g))]);
            var o := TranslateGuarded(tbl, maxLen, isCommandId, longName + ":" + payload);
            o.Found() && o.pluginId == minId
  {
    var tbl := TopicTable(minId, [Some(Topic(shortName, f)), Some(Topic(longName, g))]);
    SplitAtColon(longName, payload);
    assert shortName <= longName + ":" by { assert (longName + ":")[..|longName|] == longName; }
    FirstMatchUnique(tbl, maxLen, longName + ":", minId);
  }

  /** A registered empty name at the first id takes every message that has a colon. */
  lemma EmptyNameMatchesAnyTopic(
      tbl: TopicTable, maxLen: nat, isCommandId: int -> bool, f: JsonToCfeFn, msgData: string)
    requires maxLen > 0 && ':' in msgData
    requires tbl.GetTopic(tbl.minId) == Some(Topic("", f))
    ensures var o := Translate(tbl, maxLen, isCommandId, msgData);
            o.Found() && o.pluginId == tbl.minId
    ensures TopicFits(maxLen, msgData) ==>
              var o := TranslateGuarded(tbl, maxLen, isCommandId, msgData);
              o.Found() && o.pluginId == tbl.minId
  {
    FirstMatchUnique(tbl, maxLen, TopicName(msgData), tbl.minId);
  }

  /**
   * The code as written accepts a datagram whose topic, colon included,
   * already fills the whole topic buffer: the colon check passes, and the
   * terminator would be written one past the buffer's end.
   */
  lemma TopicBufferOverflow(maxLen: nat)
    requires maxLen > 0
    ensures var msgData := seq(maxLen - 1, _ => 'a') + ":";
            && IsCString(msgData) && ':' in msgData
            && !TopicFits(maxLen, msgData)
            && |TopicName(msgData)| == maxLen
  {
    var topic := seq(maxLen - 1, _ => 'a');
    assert ':' !in topic;
    SplitAtColon(topic, "");
    assert topic + ":" + "" == topic + ":";
  }

  /**
   * A registered name of exactly maxLen-1 characters passes the table's
   * length check, yet no datagram for it fits the topic buffer: the name,
   * its colon and the terminator need maxLen + 1 characters.
   */
  lemma NameAtLimitNeverFits(maxLen: nat, name: string, payload: string)
    requires ':' !in name && |name| + 1 == maxLen
    ensures |name| < maxLen
    ensures !TopicFits(maxLen, name + ":" + payload)
  {
    SplitAtColon(name, payload);
  }
}
