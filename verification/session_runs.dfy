/**
 * Sequences of calls on one orchestrator between two resets, and the
 * bookkeeping they keep: command ids are issued consecutively from the
 * counter, every issued id is recorded under its command's name, no earlier
 * entry is overwritten, and every command is addressed by its name.
 */
module SessionRuns {
  import opened Wrappers
  import opened Amf
  import opened SessionHistory
  import opened CommandsManager

  /**
   * One call on the orchestrator other than `reset`. Besides the sends, the
   * caller assigns the public fields (`streamId` once the server answers
   * createStream, the names and the session start time).
   */
  datatype Op =
    | ResolutionSet(width: int, height: int)
    | AudioInfoSet(sampleRate: int, isStereo: bool)
    | AuthSet(user: Option<string>, password: Option<string>)
    | StreamIdAssigned(streamId: int)
    | NamesAssigned(appName: string, streamName: string, tcUrl: string)
    | StartTimeAssigned(seconds: int)
    | ConnectSent(auth: string, now: int)
    | StreamCreated(now: int)
    | PublishSent(now: int)
    | MetadataSent(now: int)
    | WindowAckSent(windowSize: int, now: int)
    | CloseSent(now: int)
    | VideoSent(packet: FlvPacket)
    | AudioSent(packet: FlvPacket)

  function Apply(st: Session, op: Op): Step
  {
    match op
    case ResolutionSet(w, h) => Step(SetVideoResolution(st, w, h), [])
    case AudioInfoSet(rate, stereo) => Step(SetAudioInfo(st, rate, stereo), [])
    case AuthSet(user, password) => Step(SetAuth(st, user, password), [])
    case StreamIdAssigned(id) => Step(st.(streamId := id), [])
    case NamesAssigned(app, stream, url) =>
      Step(st.(appName := app, streamName := stream, tcUrl := url), [])
    case StartTimeAssigned(seconds) => Step(st.(timestamp := seconds), [])
    case ConnectSent(auth, now) => SendConnect(st, auth, now)
    case StreamCreated(now) => CreateStream(st, now)
    case PublishSent(now) => SendPublish(st, now)
    case MetadataSent(now) => SendMetadata(st, now)
    case WindowAckSent(size, now) => SendWindowAcknowledgementSize(st, size, now)
    case CloseSent(now) => SendClose(st, now)
    case VideoSent(p) => SendVideoPacket(st, p)
    case AudioSent(p) => SendAudioPacket(st, p)
  }

  /** The calls `ops` in order: the final state and everything written. */
  function Run(st: Session, ops: seq<Op>): Step
    decreases |ops|
  {
    if |ops| == 0 then Step(st, [])
    else
      var first := Apply(st, ops[0]);
      var rest := Run(first.state, ops[1..]);
      Step(rest.state, first.sent + rest.sent)
  }

  /** The ids of the commands among `msgs`, in the order they were written. */
  function CommandIds(msgs: seq<Message>): seq<int>
  {
    if |msgs| == 0 then []
    else (if msgs[0].Command? then [msgs[0].commandId] else []) + CommandIds(msgs[1..])
  }

  /** The integers lo, lo + 1, ..., hi - 1. */
  function Range(lo: int, hi: int): seq<int>
    requires lo <= hi
  {
    seq(hi - lo, i requires 0 <= i < hi - lo => lo + i)
  }

  /** Every command written resolves, through `h`, to its own name. */
  predicate Recorded(h: History, msgs: seq<Message>)
  {
    forall i :: 0 <= i < |msgs| && msgs[i].Command? ==>
      NameOf(h, msgs[i].commandId) == Some(msgs[i].name)
  }

  /** Every command is written with a full header on the chunk stream its name selects. */
  predicate Addressed(msgs: seq<Message>)
  {
    forall i :: 0 <= i < |msgs| && msgs[i].Command? ==>
      msgs[i].header == BasicHeader(Type0, ChunkStreamFor(msgs[i].name))
  }

  /** The bookkeeping promise of a run from `st` to `st'` that wrote `msgs`. */
  ghost predicate Bookkept(st: Session, st': Session, msgs: seq<Message>)
  {
    && WellFormed(st')
    && st.commandId <= st'.commandId
    && Extends(st.history, st'.history)
    && (forall k :: k in st'.history <==> k in st.history || st.commandId < k <= st'.commandId)
    && CommandIds(msgs) == Range(st.commandId + 1, st'.commandId + 1)
    && Recorded(st'.history, msgs)
  }

  lemma {:induction false} CommandIdsAppend(a: seq<Message>, b: seq<Message>)
    ensures CommandIds(a + b) == CommandIds(a) + CommandIds(b)
    decreases |a|
  {
    if |a| == 0 {
      assert a + b == b;
    } else {
      assert (a + b)[0] == a[0];
      assert (a + b)[1..] == a[1..] + b;
      CommandIdsAppend(a[1..], b);
    }
  }

  lemma RangeAppend(lo: int, mid: int, hi: int)
    requires lo <= mid <= hi
    ensures Range(lo, mid) + Range(mid, hi) == Range(lo, hi)
  {
  }

  lemma RecordedAppend(h: History, h': History, a: seq<Message>, b: seq<Message>)
    requires Recorded(h, a) && Extends(h, h') && Recorded(h', b)
    ensures Recorded(h', a + b)
  {
  }

  /** Bookkeeping composes: two bookkept runs in a row form one. */
  lemma BookkeptCompose(s1: Session, s2: Session, s3: Session, a: seq<Message>, b: seq<Message>)
    requires Bookkept(s1, s2, a) && Bookkept(s2, s3, b)
    ensures Bookkept(s1, s3, a + b)
  {
    CommandIdsAppend(a, b);
    RangeAppend(s1.commandId + 1, s2.commandId + 1, s3.commandId + 1);
    RecordedAppend(s2.history, s3.history, a, b);
  }

  /** Issuing one command keeps the bookkeeping. */
  lemma IssueBookkeeping(st: Session, name: string, now: int, header: BasicHeader,
                         body: seq<AmfValue>)
    requires WellFormed(st)
    ensures Bookkept(st, IssueCommand(st, name, now, header, body).state,
                     IssueCommand(st, name, now, header, body).sent)
  {
  }

  /** A call that writes no command leaves the counter and the history alone. */
  lemma QuietBookkeeping(st: Session, st': Session, msgs: seq<Message>)
    requires WellFormed(st)
    requires st'.commandId == st.commandId && st'.history == st.history
    requires |msgs| <= 1 && forall i :: 0 <= i < |msgs| ==> !msgs[i].Command?
    ensures Bookkept(st, st', msgs)
  {
  }

  /** createStream keeps the bookkeeping over its three commands. */
  lemma CreateStreamBookkeeping(st: Session, now: int)
    requires WellFormed(st)
    ensures Bookkept(st, CreateStream(st, now).state, CreateStream(st, now).sent)
  {
    var toStream := BasicHeader(Type0, OverStream);
    var toConnection := BasicHeader(Type0, OverConnection);
    var release := IssueCommand(st, "releaseStream", now, toStream, [Null, Str(st.streamName)]);
    var fcPublish := IssueCommand(release.state, "FCPublish", now, toStream, [Null, Str(st.streamName)]);
    var create := IssueCommand(fcPublish.state, "createStream", now, toConnection, [Null]);
    IssueBookkeeping(st, "releaseStream", now, toStream, [Null, Str(st.streamName)]);
    IssueBookkeeping(release.state, "FCPublish", now, toStream, [Null, Str(st.streamName)]);
    IssueBookkeeping(fcPublish.state, "createStream", now, toConnection, [Null]);
    BookkeptCompose(st, release.state, fcPublish.state, release.sent, fcPublish.sent);
    BookkeptCompose(st, fcPublish.state, create.state, release.sent + fcPublish.sent, create.sent);
  }

  /** A single call keeps the bookkeeping. */
  lemma ApplyBookkeeping(st: Session, op: Op)
    requires WellFormed(st)
    ensures Bookkept(st, Apply(st, op).state, Apply(st, op).sent)
  {
    match op
    case ConnectSent(auth, now) =>
      IssueBookkeeping(st, "connect", now, BasicHeader(Type0, OverConnection),
                       [ConnectObject(st.appName + auth, st.tcUrl + auth)]);
    case StreamCreated(now) =>
      CreateStreamBookkeeping(st, now);
    case PublishSent(now) =>
      IssueBookkeeping(st, "publish", now, BasicHeader(Type0, OverStream),
                       [Null, Str(st.streamName), Str("live")]);
    case CloseSent(now) =>
      IssueBookkeeping(st, "closeStream", now, BasicHeader(Type0, OverStream), [Null]);
    case MetadataSent(now) =>
      QuietBookkeeping(st, st, SendMetadata(st, now).sent);
    case WindowAckSent(size, now) =>
      QuietBookkeeping(st, st, SendWindowAcknowledgementSize(st, size, now).sent);
    case VideoSent(p) =>
      QuietBookkeeping(st, st, SendVideoPacket(st, p).sent);
    case AudioSent(p) =>
      QuietBookkeeping(st, st, SendAudioPacket(st, p).sent);
    case ResolutionSet(w, h) =>
      QuietBookkeeping(st, SetVideoResolution(st, w, h), []);
    case AudioInfoSet(rate, stereo) =>
      QuietBookkeeping(st, SetAudioInfo(st, rate, stereo), []);
    case AuthSet(user, password) =>
      QuietBookkeeping(st, SetAuth(st, user, password), []);
    case StreamIdAssigned(id) =>
      QuietBookkeeping(st, st.(streamId := id), []);
    case NamesAssigned(app, stream, url) =>
      QuietBookkeeping(st, st.(appName := app, streamName := stream, tcUrl := url), []);
    case StartTimeAssigned(seconds) =>
      QuietBookkeeping(st, st.(timestamp := seconds), []);
  }

  /**
   * Between resets, any sequence of calls issues the ids n+1, n+2, ... in
   * the order the commands are written, records each of them under its
   * command's name, adds no other key, and keeps every earlier entry.
   */
  lemma {:induction false} RunBookkeeping(st: Session, ops: seq<Op>)
    requires WellFormed(st)
    ensures Bookkept(st, Run(st, ops).state, Run(st, ops).sent)
    decreases |ops|
  {
    if |ops| > 0 {
      var first := Apply(st, ops[0]);
      var rest := Run(first.state, ops[1..]);
      ApplyBookkeeping(st, ops[0]);
      RunBookkeeping(first.state, ops[1..]);
      BookkeptCompose(st, first.state, rest.state, first.sent, rest.sent);
    }
  }

  /** Command ids are never reused between resets: no two commands written share one. */
  lemma IdsNeverReused(st: Session, ops: seq<Op>)
    requires WellFormed(st)
    ensures forall i, j :: 0 <= i < j < |CommandIds(Run(st, ops).sent)| ==>
              CommandIds(Run(st, ops).sent)[i] < CommandIds(Run(st, ops).sent)[j]
    ensures forall id :: id in CommandIds(Run(st, ops).sent) ==> id !in st.history
  {
    RunBookkeeping(st, ops);
  }

  lemma AddressedAppend(a: seq<Message>, b: seq<Message>)
    requires Addressed(a) && Addressed(b)
    ensures Addressed(a + b)
  {
  }

  /** Every command a single call writes is addressed by its name. */
  lemma ApplyAddressing(st: Session, op: Op)
    ensures Addressed(Apply(st, op).sent)
  {
  }

  /** Every command written in a run has a type-0 header on the chunk stream its name selects. */
  lemma {:induction false} RunAddressing(st: Session, ops: seq<Op>)
    ensures Addressed(Run(st, ops).sent)
    decreases |ops|
  {
    if |ops| > 0 {
      var first := Apply(st, ops[0]);
      var rest := Run(first.state, ops[1..]);
      ApplyAddressing(st, ops[0]);
      RunAddressing(first.state, ops[1..]);
      AddressedAppend(first.sent, rest.sent);
    }
  }

  /** The call changes neither the resolution nor the audio settings. */
  predicate KeepsMediaSettings(op: Op)
  {
    !op.ResolutionSet? && !op.AudioInfoSet?
  }

  lemma {:induction false} RunKeepsMediaSettings(st: Session, ops: seq<Op>)
    requires forall i :: 0 <= i < |ops| ==> KeepsMediaSettings(ops[i])
    ensures Run(st, ops).state.width == st.width
    ensures Run(st, ops).state.height == st.height
    ensures Run(st, ops).state.sampleRate == st.sampleRate
    ensures Run(st, ops).state.isStereo == st.isStereo
    decreases |ops|
  {
    if |ops| > 0 {
      var first := Apply(st, ops[0]);
      assert KeepsMediaSettings(ops[0]);
      assert first.state.width == st.width && first.state.height == st.height;
      assert first.state.sampleRate == st.sampleRate && first.state.isStereo == st.isStereo;
      RunKeepsMediaSettings(first.state, ops[1..]);
    }
  }

  /**
   * The metadata describes the resolution and audio settings set last: after
   * setting them, whatever other calls follow, `onMetaData` reports them.
   */
  lemma MetadataUsesLatestSettings(st: Session, width: int, height: int, sampleRate: int,
                                   isStereo: bool, ops: seq<Op>, now: int)
    requires forall i :: 0 <= i < |ops| ==> KeepsMediaSettings(ops[i])
    ensures
      var st' := Run(SetAudioInfo(SetVideoResolution(st, width, height), sampleRate, isStereo), ops).state;
      var props := SendMetadata(st', now).sent[0].body[1].properties;
      && Lookup(props, "width") == Some(Number(width))
      && Lookup(props, "height") == Some(Number(height))
      && Lookup(props, "audiosamplerate") == Some(Number(sampleRate))
      && Lookup(props, "stereo") == Some(Boolean(isStereo))
  {
    var configured := SetAudioInfo(SetVideoResolution(st, width, height), sampleRate, isStereo);
    var st' := Run(configured, ops).state;
    RunKeepsMediaSettings(configured, ops);
    MetadataArrayContents(st');
    assert SendMetadata(st', now).sent[0].body[1] == MetadataArray(st');
  }

  /** From a new orchestrator, connect then createStream records exactly four entries. */
  lemma ConnectThenCreateStream(auth: string, now1: int, now2: int)
    ensures CreateStream(SendConnect(Initial(), auth, now1).state, now2).state.history
              == map[1 := "connect", 2 := "releaseStream", 3 := "FCPublish", 4 := "createStream"]
    ensures CreateStream(SendConnect(Initial(), auth, now1).state, now2).state.commandId == 4
  {
  }

  /**
   * After `reset`, numbering starts again at 1: whatever was issued before,
   * the commands that follow carry ids 1, 2, ... and are the only history entries.
   */
  lemma ResetRestartsNumbering(st: Session, ops: seq<Op>)
    ensures Run(Reset(st), ops).state.commandId >= 0
    ensures CommandIds(Run(Reset(st), ops).sent) == Range(1, Run(Reset(st), ops).state.commandId + 1)
    ensures forall k :: k in Run(Reset(st), ops).state.history <==>
              1 <= k <= Run(Reset(st), ops).state.commandId
  {
    RunBookkeeping(Reset(st), ops);
  }
}
