/**
  The vocabulary of the owner/processor protocol: the five message topics of a
  changefeed and the records sent on them.

  A topic is a fixed prefix followed by the changefeed ID. `ParseTopic` is the
  inverse of the five builders; the lemmas below use it to show that every
  builder is injective and that no two topic families share a topic.
 */
module Protocol {
  import opened Wrappers
  import opened Model

  /** A transport topic name. */
  type Topic = string

  const DispatchPrefix: string := "dispatch/"
  const DispatchResponsePrefix: string := "dispatch-resp/"
  const AnnouncePrefix: string := "send-status/"
  const SyncPrefix: string := "send-status-resp/"
  const CheckpointPrefix: string := "checkpoint/"

  // ---------------------------------------------------------------------------
  // Messages
  // ---------------------------------------------------------------------------

  /** Owner to processor: add (`isDelete == false`) or remove a keyspan. */
  datatype DispatchKeySpanMessage = DispatchKeySpanMessage(
    ownerRev: int64,
    id: KeySpanID,
    isDelete: bool,
    start: seq<byte>,
    end: seq<byte>)

  /** Processor to owner: acknowledges a dispatch of keyspan `id`. */
  datatype DispatchKeySpanResponseMessage = DispatchKeySpanResponseMessage(id: KeySpanID)

  /** Owner to processor: announces an ownership change. */
  datatype AnnounceMessage = AnnounceMessage(ownerRev: int64, ownerVersion: string)

  /** Processor to owner: the processor's current keyspans, by phase. */
  datatype SyncMessage = SyncMessage(
    processorVersion: string,
    running: seq<KeySpanID>,
    adding: seq<KeySpanID>,
    removing: seq<KeySpanID>)

  /** Processor to owner: the latest watermarks. */
  datatype CheckpointMessage = CheckpointMessage(checkpointTs: Ts, resolvedTs: Ts)

  // ---------------------------------------------------------------------------
  // Topics
  // ---------------------------------------------------------------------------

  /** The five topic families, one per message kind. */
  datatype TopicFamily =
    | DispatchKeySpan
    | DispatchKeySpanResponse
    | Announce
    | Sync
    | Checkpoint

  /** What a topic name says: its family and the changefeed it belongs to. */
  datatype Route = Route(family: TopicFamily, changefeedID: ChangeFeedID)

  function Prefix(family: TopicFamily): string
  {
    match family
    case DispatchKeySpan => DispatchPrefix
    case DispatchKeySpanResponse => DispatchResponsePrefix
    case Announce => AnnouncePrefix
    case Sync => SyncPrefix
    case Checkpoint => CheckpointPrefix
  }

  predicate HasPrefix(p: string, t: string)
  {
    |p| <= |t| && t[..|p|] == p
  }

  /**
    Recovers the family and the changefeed ID from a topic name, or `None`
    when the name has none of the five prefixes.
   */
  function ParseTopic(t: Topic): Option<Route>
  {
    if HasPrefix(DispatchPrefix, t) then
      Some(Route(DispatchKeySpan, t[|DispatchPrefix|..]))
    else if HasPrefix(DispatchResponsePrefix, t) then
      Some(Route(DispatchKeySpanResponse, t[|DispatchResponsePrefix|..]))
    else if HasPrefix(AnnouncePrefix, t) then
      Some(Route(Announce, t[|AnnouncePrefix|..]))
    else if HasPrefix(SyncPrefix, t) then
      Some(Route(Sync, t[|SyncPrefix|..]))
    else if HasPrefix(CheckpointPrefix, t) then
      Some(Route(Checkpoint, t[|CheckpointPrefix|..]))
    else
      None
  }

  /** The topic for dispatching a keyspan. */
  function DispatchKeySpanTopic(changefeedID: ChangeFeedID): (t: Topic)
    ensures HasPrefix(DispatchPrefix, t) && t[|DispatchPrefix|..] == changefeedID
    ensures ParseTopic(t) == Some(Route(DispatchKeySpan, changefeedID))
  {
    DispatchPrefix + changefeedID
  }

  /** The topic for a processor's answer to a dispatch. */
  function DispatchKeySpanResponseTopic(changefeedID: ChangeFeedID): (t: Topic)
    ensures HasPrefix(DispatchResponsePrefix, t) && t[|DispatchResponsePrefix|..] == changefeedID
    ensures ParseTopic(t) == Some(Route(DispatchKeySpanResponse, changefeedID))
  {
    var t := DispatchResponsePrefix + changefeedID;
    // "dispatch/" and "dispatch-resp/" differ at index 8
    assert t[8] == '-';
    t
  }

  /** The topic for announcing an ownership change. */
  function AnnounceTopic(changefeedID: ChangeFeedID): (t: Topic)
    ensures HasPrefix(AnnouncePrefix, t) && t[|AnnouncePrefix|..] == changefeedID
    ensures ParseTopic(t) == Some(Route(Announce, changefeedID))
  {
    var t := AnnouncePrefix + changefeedID;
    // differs from both dispatch prefixes at index 0
    assert t[0] == 's';
    t
  }

  /** The topic for a processor's synchronisation report. */
  function SyncTopic(changefeedID: ChangeFeedID): (t: Topic)
    ensures HasPrefix(SyncPrefix, t) && t[|SyncPrefix|..] == changefeedID
    ensures ParseTopic(t) == Some(Route(Sync, changefeedID))
  {
    var t := SyncPrefix + changefeedID;
    // "send-status/" and "send-status-resp/" differ at index 11
    assert t[0] == 's' && t[11] == '-';
    t
  }

  /** The topic for a processor's watermark report. */
  function CheckpointTopic(changefeedID: ChangeFeedID): (t: Topic)
    ensures HasPrefix(CheckpointPrefix, t) && t[|CheckpointPrefix|..] == changefeedID
    ensures ParseTopic(t) == Some(Route(Checkpoint, changefeedID))
  {
    var t := CheckpointPrefix + changefeedID;
    // differs from every other prefix at index 0
    assert t[0] == 'c';
    t
  }

  /** The topic of a family for a changefeed, through the family's builder. */
  function TopicOf(r: Route): (t: Topic)
    ensures ParseTopic(t) == Some(r)
  {
    match r.family
    case DispatchKeySpan => DispatchKeySpanTopic(r.changefeedID)
    case DispatchKeySpanResponse => DispatchKeySpanResponseTopic(r.changefeedID)
    case Announce => AnnounceTopic(r.changefeedID)
    case Sync => SyncTopic(r.changefeedID)
    case Checkpoint => CheckpointTopic(r.changefeedID)
  }

  // ---------------------------------------------------------------------------
  // Properties of the topic names
  // ---------------------------------------------------------------------------

  /** Every name that parses is the name its builder gives: parsing loses nothing. */
  lemma ParseThenBuild(t: Topic)
    requires ParseTopic(t).Some?
    ensures TopicOf(ParseTopic(t).value) == t
  {
  }

  /**
    Two topics are equal exactly when they have the same family and the same
    changefeed: each builder is injective and the five families are disjoint.
   */
  lemma TopicsEqualIff(r1: Route, r2: Route)
    ensures TopicOf(r1) == TopicOf(r2) <==> r1 == r2
  {
  }

  /** A name is a protocol topic exactly when it parses. */
  lemma IsTopicIff(t: Topic)
    ensures ParseTopic(t).Some? <==> exists r :: TopicOf(r) == t
  {
    if ParseTopic(t).Some? {
      ParseThenBuild(t);
    }
  }

  /** Distinct changefeed IDs never share a dispatch topic. */
  lemma DispatchKeySpanTopicInjective(cf1: ChangeFeedID, cf2: ChangeFeedID)
    requires DispatchKeySpanTopic(cf1) == DispatchKeySpanTopic(cf2)
    ensures cf1 == cf2
  {
  }

  /** A dispatch topic is never a dispatch-response topic, whatever the IDs. */
  lemma DispatchFamiliesDisjoint(cf1: ChangeFeedID, cf2: ChangeFeedID)
    ensures DispatchKeySpanTopic(cf1) != DispatchKeySpanResponseTopic(cf2)
  {
  }

  /** An announce topic is never a sync topic, whatever the IDs. */
  lemma StatusFamiliesDisjoint(cf1: ChangeFeedID, cf2: ChangeFeedID)
    ensures AnnounceTopic(cf1) != SyncTopic(cf2)
  {
  }

}
