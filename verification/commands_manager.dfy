/**
 * The command orchestrator of an RTMP publishing client: the session state
 * it owns and each high-level send as a pure transition from a state to the
 * next state and the messages written.
 *
 * The wall clock is a parameter `now` (milliseconds since the epoch); the
 * transport is left out, so a send is the list of messages it writes.
 */
module CommandsManager {
  import opened Wrappers
  import opened Amf
  import opened SessionHistory

  const MinInt32: int := -0x8000_0000
  const MaxInt32: int := 0x7FFF_FFFF

  /** The chunk header compression level (section 5.3.1.2 of the RTMP 1.0 specification). */
  datatype ChunkType = Type0 | Type1 | Type2 | Type3

  /** The two chunk streams the commands are addressed to. */
  datatype ChunkStreamId = OverConnection | OverStream

  /** The basic header a command is written with. */
  datatype BasicHeader = BasicHeader(chunkType: ChunkType, chunkStreamId: ChunkStreamId)

  /** A media packet built outside this layer: payload bytes and their timestamp. */
  datatype FlvPacket = FlvPacket(buffer: seq<Byte>, timeStamp: int)

  /** A message written to the transport. */
  datatype Message =
    | Command(name: string, commandId: int, timestamp: int, streamId: int,
              header: BasicHeader, body: seq<AmfValue>)
    | Data(name: string, timestamp: int, streamId: int, body: seq<AmfValue>)
    | WindowAcknowledgementSize(windowSize: int, timestamp: int)
    | Video(packet: FlvPacket, streamId: int)
    | Audio(packet: FlvPacket, streamId: int)

  /** The state the orchestrator owns. `timestamp` is the session start in seconds. */
  datatype Session = Session(
    timestamp: int,
    commandId: int,
    streamId: int,
    history: History,
    appName: string,
    streamName: string,
    tcUrl: string,
    user: Option<string>,
    password: Option<string>,
    width: int,
    height: int,
    sampleRate: int,
    isStereo: bool)

  /** The new state and the messages written, in order. */
  datatype Step = Step(state: Session, sent: seq<Message>)

  /** Between resets, every recorded id was issued: it lies in 1..commandId. */
  predicate WellFormed(st: Session)
  {
    && st.commandId >= 0
    && forall k :: k in st.history ==> 1 <= k <= st.commandId
  }

  /** A newly constructed orchestrator. */
  function Initial(): (st: Session)
    ensures WellFormed(st)
    ensures st.commandId == 0 && st.streamId == 0 && st.history == map[]
    ensures st.timestamp == 0
    ensures st.width == 640 && st.height == 480
    ensures st.sampleRate == 44100 && st.isStereo
  {
    Session(0, 0, 0, Empty(), "", "", "", None, None, 640, 480, 44100, true)
  }

  /** Which chunk stream a command of the given name is written on. */
  function ChunkStreamFor(name: string): ChunkStreamId
  {
    if name == "connect" || name == "createStream" then OverConnection else OverStream
  }

  /** Kotlin's `Long.toInt()`: keep the low 32 bits as a signed value. */
  function ToInt32(x: int): (r: int)
    ensures MinInt32 <= r <= MaxInt32
    ensures (r - x) % 0x1_0000_0000 == 0
    ensures MinInt32 <= x <= MaxInt32 ==> r == x
  {
    (x - MinInt32) % 0x1_0000_0000 + MinInt32
  }

  /** Kotlin's `Long` division: the quotient is truncated toward zero. */
  function TruncDiv(a: int, d: int): (q: int)
    requires d > 0
    ensures a >= 0 ==> d * q <= a < d * q + d
    ensures a < 0 ==> d * q - d < a <= d * q
  {
    if a >= 0 then a / d else -((-a) / d)
  }

  /** Seconds since the session start, as a 32-bit value. */
  function CurrentTimestamp(st: Session, now: int): (t: int)
    ensures MinInt32 <= t <= MaxInt32
    ensures (t - (TruncDiv(now, 1000) - st.timestamp)) % 0x1_0000_0000 == 0
  {
    ToInt32(TruncDiv(now, 1000) - st.timestamp)
  }

  function SetVideoResolution(st: Session, width: int, height: int): (r: Session)
    ensures r.width == width && r.height == height
    ensures r == st.(width := r.width, height := r.height)
  {
    st.(width := width, height := height)
  }

  function SetAudioInfo(st: Session, sampleRate: int, isStereo: bool): (r: Session)
    ensures r.sampleRate == sampleRate && r.isStereo == isStereo
    ensures r == st.(sampleRate := r.sampleRate, isStereo := r.isStereo)
  {
    st.(sampleRate := sampleRate, isStereo := isStereo)
  }

  function SetAuth(st: Session, user: Option<string>, password: Option<string>): (r: Session)
    ensures r.user == user && r.password == password
    ensures r == st.(user := r.user, password := r.password)
  {
    st.(user := user, password := password)
  }

  /** The keys of the `connect` command object, in the order they are written. */
  const ConnectKeys: seq<string> :=
    ["app", "flashVer", "swfUrl", "tcUrl", "fpad", "capabilities",
     "audioCodecs", "videoCodecs", "videoFunction", "pageUrl", "objectEncoding"]

  /** The properties of the `connect` command object, in the order they are set. */
  function ConnectProperties(app: string, tcUrl: string): seq<Property>
  {
    [ Property("app", Str(app)),
      Property("flashVer", Str("FMLE/3.0 (compatible; Lavf57.56.101)")),
      Property("swfUrl", Str("")),
      Property("tcUrl", Str(tcUrl)),
      Property("fpad", Boolean(false)),
      Property("capabilities", Number(239)),
      Property("audioCodecs", Number(3191)),
      Property("videoCodecs", Number(252)),
      Property("videoFunction", Number(1)),
      Property("pageUrl", Str("")),
      Property("objectEncoding", Number(0)) ]
  }

  lemma ConnectKeysDistinct(app: string, tcUrl: string)
    ensures Keys(ConnectProperties(app, tcUrl)) == ConnectKeys
    ensures DistinctKeys(ConnectProperties(app, tcUrl))
  {
  }

  /** The `connect` command object for the given application and URL. */
  function ConnectObject(app: string, tcUrl: string): AmfValue
  {
    Object(ConnectProperties(app, tcUrl))
  }

  /**
   * The `connect` command object holds eleven distinct properties in fixed
   * order: the caller's application and URL and the fixed capability values.
   */
  lemma ConnectObjectContents(app: string, tcUrl: string)
    ensures ConnectObject(app, tcUrl).Object?
    ensures Keys(ConnectObject(app, tcUrl).properties) == ConnectKeys
    ensures DistinctKeys(ConnectObject(app, tcUrl).properties)
    ensures Lookup(ConnectObject(app, tcUrl).properties, "app") == Some(Str(app))
    ensures Lookup(ConnectObject(app, tcUrl).properties, "tcUrl") == Some(Str(tcUrl))
    ensures Lookup(ConnectObject(app, tcUrl).properties, "flashVer")
              == Some(Str("FMLE/3.0 (compatible; Lavf57.56.101)"))
    ensures Lookup(ConnectObject(app, tcUrl).properties, "swfUrl") == Some(Str(""))
    ensures Lookup(ConnectObject(app, tcUrl).properties, "pageUrl") == Some(Str(""))
    ensures Lookup(ConnectObject(app, tcUrl).properties, "fpad") == Some(Boolean(false))
    ensures Lookup(ConnectObject(app, tcUrl).properties, "capabilities") == Some(Number(239))
    ensures Lookup(ConnectObject(app, tcUrl).properties, "audioCodecs") == Some(Number(3191))
    ensures Lookup(ConnectObject(app, tcUrl).properties, "videoCodecs") == Some(Number(252))
    ensures Lookup(ConnectObject(app, tcUrl).properties, "videoFunction") == Some(Number(1))
    ensures Lookup(ConnectObject(app, tcUrl).properties, "objectEncoding") == Some(Number(0))
  {
    var ps := ConnectProperties(app, tcUrl);
    ConnectKeysDistinct(app, tcUrl);
    LookupAt(ps, 0); LookupAt(ps, 1); LookupAt(ps, 2); LookupAt(ps, 3);
    LookupAt(ps, 4); LookupAt(ps, 5); LookupAt(ps, 6); LookupAt(ps, 7);
    LookupAt(ps, 8); LookupAt(ps, 9); LookupAt(ps, 10);
  }

  /** The keys of the `onMetaData` ECMA array, in the order they are written. */
  const MetadataKeys: seq<string> :=
    ["duration", "width", "height", "videocodecid", "framerate", "videodatarate",
     "audiocodecid", "audiosamplerate", "audiosamplesize", "audiodatarate",
     "stereo", "filesize"]

  /** The entries of the `onMetaData` array, in the order they are set. */
  function MetadataProperties(st: Session): seq<Property>
  {
    [ Property("duration", Number(0)),
      Property("width", Number(st.width)),
      Property("height", Number(st.height)),
      Property("videocodecid", Number(7)),
      Property("framerate", Number(30)),
      Property("videodatarate", Number(0)),
      Property("audiocodecid", Number(10)),
      Property("audiosamplerate", Number(st.sampleRate)),
      Property("audiosamplesize", Number(16)),
      Property("audiodatarate", Number(0)),
      Property("stereo", Boolean(st.isStereo)),
      Property("filesize", Number(0)) ]
  }

  lemma MetadataKeysDistinct(st: Session)
    ensures Keys(MetadataProperties(st)) == MetadataKeys
    ensures DistinctKeys(MetadataProperties(st))
  {
  }

  /** The `onMetaData` ECMA array describing the configured media. */
  function MetadataArray(st: Session): AmfValue
  {
    EcmaArray(MetadataProperties(st))
  }

  /**
   * The `onMetaData` array holds twelve distinct entries in fixed order; its
   * resolution, sample rate and stereo flag are the configured ones.
   */
  lemma MetadataArrayContents(st: Session)
    ensures MetadataArray(st).EcmaArray?
    ensures Keys(MetadataArray(st).properties) == MetadataKeys
    ensures DistinctKeys(MetadataArray(st).properties)
    ensures Lookup(MetadataArray(st).properties, "width") == Some(Number(st.width))
    ensures Lookup(MetadataArray(st).properties, "height") == Some(Number(st.height))
    ensures Lookup(MetadataArray(st).properties, "audiosamplerate") == Some(Number(st.sampleRate))
    ensures Lookup(MetadataArray(st).properties, "stereo") == Some(Boolean(st.isStereo))
    ensures Lookup(MetadataArray(st).properties, "duration") == Some(Number(0))
    ensures Lookup(MetadataArray(st).properties, "videocodecid") == Some(Number(7))
    ensures Lookup(MetadataArray(st).properties, "framerate") == Some(Number(30))
    ensures Lookup(MetadataArray(st).properties, "videodatarate") == Some(Number(0))
    ensures Lookup(MetadataArray(st).properties, "audiocodecid") == Some(Number(10))
    ensures Lookup(MetadataArray(st).properties, "audiosamplesize") == Some(Number(16))
    ensures Lookup(MetadataArray(st).properties, "audiodatarate") == Some(Number(0))
    ensures Lookup(MetadataArray(st).properties, "filesize") == Some(Number(0))
  {
    var ps := MetadataProperties(st);
    MetadataKeysDistinct(st);
    LookupAt(ps, 0); LookupAt(ps, 1); LookupAt(ps, 2); LookupAt(ps, 3);
    LookupAt(ps, 4); LookupAt(ps, 5); LookupAt(ps, 6); LookupAt(ps, 7);
    LookupAt(ps, 8); LookupAt(ps, 9); LookupAt(ps, 10); LookupAt(ps, 11);
  }

  /**
   * Issue the next command id to a command: the id is taken by pre-increment,
   * the command is written, then the id is recorded under the command's name.
   */
  function IssueCommand(st: Session, name: string, now: int, header: BasicHeader,
                        body: seq<AmfValue>): (r: Step)
    ensures r.state.commandId == st.commandId + 1
    ensures r.state.history == SetPacket(st.history, r.state.commandId, name)
    ensures r.state == st.(commandId := r.state.commandId, history := r.state.history)
    ensures |r.sent| == 1 && r.sent[0].Command?
    ensures r.sent[0].name == name && r.sent[0].commandId == r.state.commandId
    ensures r.sent[0].header == header
    ensures r.sent[0].streamId == st.streamId && r.sent[0].body == body
    ensures r.sent[0].timestamp == CurrentTimestamp(st, now)
  {
    var id := st.commandId + 1;
    var command := Command(name, id, CurrentTimestamp(st, now), st.streamId, header, body);
    Step(st.(commandId := id, history := SetPacket(st.history, id, name)), [command])
  }

  /** `sendConnect(auth)`: authentication is appended to both app and tcUrl. */
  function SendConnect(st: Session, auth: string, now: int): (r: Step)
    ensures r.state.commandId == st.commandId + 1
    ensures r.state.history == st.history[r.state.commandId := "connect"]
    ensures r.state == st.(commandId := r.state.commandId, history := r.state.history)
    ensures |r.sent| == 1 && r.sent[0].Command? && r.sent[0].name == "connect"
    ensures r.sent[0].commandId == r.state.commandId
    ensures r.sent[0].header == BasicHeader(Type0, OverConnection)
    ensures r.sent[0].streamId == st.streamId
    ensures r.sent[0].body == [ConnectObject(st.appName + auth, st.tcUrl + auth)]
    ensures r.sent[0].timestamp == CurrentTimestamp(st, now)
  {
    IssueCommand(st, "connect", now, BasicHeader(Type0, OverConnection),
                 [ConnectObject(st.appName + auth, st.tcUrl + auth)])
  }

  /** `createStream`: releaseStream, FCPublish and createStream, on consecutive ids. */
  function CreateStream(st: Session, now: int): (r: Step)
    ensures r.state.commandId == st.commandId + 3
    ensures r.state.history ==
              st.history[st.commandId + 1 := "releaseStream"]
                        [st.commandId + 2 := "FCPublish"]
                        [st.commandId + 3 := "createStream"]
    ensures r.state == st.(commandId := r.state.commandId, history := r.state.history)
    ensures |r.sent| == 3
    ensures forall i :: 0 <= i < 3 ==>
              && r.sent[i].Command?
              && r.sent[i].commandId == st.commandId + 1 + i
              && r.sent[i].streamId == st.streamId
              && r.sent[i].timestamp == CurrentTimestamp(st, now)
              && r.sent[i].header == BasicHeader(Type0, ChunkStreamFor(r.sent[i].name))
    ensures r.sent[0].name == "releaseStream" && r.sent[1].name == "FCPublish"
    ensures r.sent[2].name == "createStream"
    ensures r.sent[0].header.chunkStreamId == OverStream
    ensures r.sent[1].header.chunkStreamId == OverStream
    ensures r.sent[2].header.chunkStreamId == OverConnection
    ensures r.sent[0].body == [Null, Str(st.streamName)]
    ensures r.sent[1].body == [Null, Str(st.streamName)]
    ensures r.sent[2].body == [Null]
  {
    var release := IssueCommand(st, "releaseStream", now, BasicHeader(Type0, OverStream),
                                [Null, Str(st.streamName)]);
    var fcPublish := IssueCommand(release.state, "FCPublish", now, BasicHeader(Type0, OverStream),
                                  [Null, Str(st.streamName)]);
    var create := IssueCommand(fcPublish.state, "createStream", now,
                               BasicHeader(Type0, OverConnection), [Null]);
    Step(create.state, release.sent + fcPublish.sent + create.sent)
  }

  /** `sendPublish`: publish the configured stream name as a live stream. */
  function SendPublish(st: Session, now: int): (r: Step)
    ensures r.state.commandId == st.commandId + 1
    ensures r.state.history == st.history[r.state.commandId := "publish"]
    ensures r.state == st.(commandId := r.state.commandId, history := r.state.history)
    ensures |r.sent| == 1 && r.sent[0].Command? && r.sent[0].name == "publish"
    ensures r.sent[0].commandId == r.state.commandId
    ensures r.sent[0].header == BasicHeader(Type0, OverStream)
    ensures r.sent[0].streamId == st.streamId
    ensures r.sent[0].body == [Null, Str(st.streamName), Str("live")]
    ensures r.sent[0].timestamp == CurrentTimestamp(st, now)
  {
    IssueCommand(st, "publish", now, BasicHeader(Type0, OverStream),
                 [Null, Str(st.streamName), Str("live")])
  }

  /** `sendClose`: the closeStream command. */
  function SendClose(st: Session, now: int): (r: Step)
    ensures r.state.commandId == st.commandId + 1
    ensures r.state.history == st.history[r.state.commandId := "closeStream"]
    ensures r.state == st.(commandId := r.state.commandId, history := r.state.history)
    ensures |r.sent| == 1 && r.sent[0].Command? && r.sent[0].name == "closeStream"
    ensures r.sent[0].commandId == r.state.commandId
    ensures r.sent[0].header == BasicHeader(Type0, OverStream)
    ensures r.sent[0].streamId == st.streamId
    ensures r.sent[0].body == [Null]
    ensures r.sent[0].timestamp == CurrentTimestamp(st, now)
  {
    IssueCommand(st, "closeStream", now, BasicHeader(Type0, OverStream), [Null])
  }

  /** `sendMetadata`: the @setDataFrame data message; it takes no command id. */
  function SendMetadata(st: Session, now: int): (r: Step)
    ensures r.state == st
    ensures |r.sent| == 1 && r.sent[0].Data? && r.sent[0].name == "@setDataFrame"
    ensures r.sent[0].streamId == st.streamId
    ensures |r.sent[0].body| == 2 && r.sent[0].body[0] == Str("onMetaData")
    ensures r.sent[0].body[1] == MetadataArray(st)
    ensures r.sent[0].timestamp == CurrentTimestamp(st, now)
  {
    Step(st, [Data("@setDataFrame", CurrentTimestamp(st, now), st.streamId,
                   [Str("onMetaData"), MetadataArray(st)])])
  }

  /** `sendWindowAcknowledgementSize`: the configured window, no command id. */
  function SendWindowAcknowledgementSize(st: Session, windowSize: int, now: int): (r: Step)
    ensures r.state == st
    ensures r.sent == [WindowAcknowledgementSize(windowSize, CurrentTimestamp(st, now))]
  {
    Step(st, [WindowAcknowledgementSize(windowSize, CurrentTimestamp(st, now))])
  }

  /** `sendVideoPacket`: the packet on the current message stream. */
  function SendVideoPacket(st: Session, packet: FlvPacket): (r: Step)
    ensures r.state == st
    ensures r.sent == [Video(packet, st.streamId)]
  {
    Step(st, [Video(packet, st.streamId)])
  }

  /** `sendAudioPacket`: the packet on the current message stream. */
  function SendAudioPacket(st: Session, packet: FlvPacket): (r: Step)
    ensures r.state == st
    ensures r.sent == [Audio(packet, st.streamId)]
  {
    Step(st, [Audio(packet, st.streamId)])
  }

  /** `reset`: stream id, command id and history return to their initial values together. */
  function Reset(st: Session): (r: Session)
    ensures r.streamId == 0 && r.commandId == 0 && r.history == map[]
    ensures WellFormed(r)
    ensures r == st.(streamId := 0, commandId := 0, history := r.history)
  {
    st.(streamId := 0, commandId := 0, history := Empty())
  }
}
