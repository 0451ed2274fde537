/** The spectator page: incoming video streams fill the challenger and
    opponent slots in arrival order, and `code-update` events go to one of the
    two read-only panes by comparing the event's email with the opponent's. */
module WatchArena {
  import opened Wrappers

  /** The identity of a received media stream. */
  type StreamId = nat

  /** The page state: whether each video element is mounted, what each plays,
      the opponent email fetched for this duel (undefined until it arrives)
      and the two panes (a pane can be set to undefined). */
  datatype View = View(
    challengerVideo: bool,
    opponentVideo: bool,
    challengerSrc: Option<StreamId>,
    opponentSrc: Option<StreamId>,
    opponentEmail: Option<string>,
    userCode: Option<string>,
    opponentCode: Option<string>)

  /** The payload of `code-update`: an object with `email` and `code`, or the
      bare code string the server relays, whose destructured fields are undefined. */
  datatype CodeUpdatePayload = UpdateFields(email: Option<string>, code: Option<string>) | BareCode(text: string)

  function PayloadEmail(p: CodeUpdatePayload): Option<string>
  {
    match p
    case UpdateFields(email, _) => email
    case BareCode(_) => None
  }

  function PayloadCode(p: CodeUpdatePayload): Option<string>
  {
    match p
    case UpdateFields(_, code) => code
    case BareCode(_) => None
  }

  /** The state on mount, with the given video elements present. */
  function Initial(challengerVideo: bool, opponentVideo: bool): View
  {
    View(challengerVideo, opponentVideo, None, None, None,
         Some("// Challenger's code"), Some("// Opponent's code"))
  }

  /** A `stream` event: ignored unless both video elements exist; fills the
      challenger slot if empty, else the opponent slot if empty, else drops it. */
  function OnStream(v: View, stream: StreamId): View
  {
    if !v.challengerVideo || !v.opponentVideo then v
    else if v.challengerSrc.None? then v.(challengerSrc := Some(stream))
    else if v.opponentSrc.None? then v.(opponentSrc := Some(stream))
    else v
  }

  /** Streams arriving in order. */
  function OnStreams(v: View, streams: seq<StreamId>): View
    decreases |streams|
  {
    if streams == [] then v else OnStreams(OnStream(v, streams[0]), streams[1..])
  }

  /** A `code-update`: loose equality of the event email and the opponent
      email (undefined equals undefined) picks the opponent pane, anything
      else the challenger pane. */
  function OnCodeUpdate(v: View, p: CodeUpdatePayload): View
  {
    if PayloadEmail(p) == v.opponentEmail then v.(opponentCode := PayloadCode(p))
    else v.(userCode := PayloadCode(p))
  }

  /** Only the slots change on a stream; a stream fills the opponent slot only
      when the challenger slot is already filled and the opponent slot empty. */
  lemma StreamSlotRules(v: View, stream: StreamId)
    ensures var r := OnStream(v, stream);
      && r == v.(challengerSrc := r.challengerSrc, opponentSrc := r.opponentSrc)
      && (r.challengerSrc != v.challengerSrc ==>
            v.challengerSrc.None? && r.challengerSrc == Some(stream) && r.opponentSrc == v.opponentSrc)
      && (r.opponentSrc != v.opponentSrc ==>
            v.challengerSrc.Some? && v.opponentSrc.None? && r.opponentSrc == Some(stream))
      && (!v.challengerVideo || !v.opponentVideo ==> r == v)
  {
  }

  /** A filled slot is never overwritten, whatever streams arrive later. */
  lemma {:induction false} FilledSlotsStay(v: View, streams: seq<StreamId>)
    ensures v.challengerSrc.Some? ==> OnStreams(v, streams).challengerSrc == v.challengerSrc
    ensures v.opponentSrc.Some? ==> OnStreams(v, streams).opponentSrc == v.opponentSrc
    ensures v.challengerSrc.Some? && v.opponentSrc.Some? ==> OnStreams(v, streams) == v
    decreases |streams|
  {
    if streams != [] {
      FilledSlotsStay(OnStream(v, streams[0]), streams[1..]);
    }
  }

  /** With both elements present and both slots empty, the first stream is the
      challenger's and the second the opponent's; later ones are dropped. */
  lemma FirstTwoStreamsWin(v: View, a: StreamId, b: StreamId, rest: seq<StreamId>)
    requires v.challengerVideo && v.opponentVideo
    requires v.challengerSrc.None? && v.opponentSrc.None?
    ensures OnStreams(v, [a, b] + rest) == v.(challengerSrc := Some(a), opponentSrc := Some(b))
  {
    var after := OnStream(OnStream(v, a), b);
    assert ([a, b] + rest)[1..] == [b] + rest;
    assert ([b] + rest)[1..] == rest;
    assert OnStreams(v, [a, b] + rest) == OnStreams(after, rest);
    FilledSlotsStay(after, rest);
  }

  /** Streams that arrive while a video element is missing are all ignored. */
  lemma {:induction false} MissingElementIgnoresStreams(v: View, streams: seq<StreamId>)
    requires !v.challengerVideo || !v.opponentVideo
    ensures OnStreams(v, streams) == v
    decreases |streams|
  {
    if streams != [] {
      MissingElementIgnoresStreams(v, streams[1..]);
    }
  }

  /** Each update sets exactly the pane its email picks and keeps everything else. */
  lemma CodeUpdateSetsOnePane(v: View, p: CodeUpdatePayload)
    ensures var r := OnCodeUpdate(v, p);
      && (PayloadEmail(p) == v.opponentEmail ==>
            r == v.(opponentCode := PayloadCode(p)) && r.userCode == v.userCode)
      && (PayloadEmail(p) != v.opponentEmail ==>
            r == v.(userCode := PayloadCode(p)) && r.opponentCode == v.opponentCode)
  {
  }

  /** The update as the server actually relays it (a bare string): its code
      never reaches a pane. The pane it hits becomes undefined, and which pane
      depends only on whether the opponent email has arrived. */
  lemma BareRelayBlanksAPane(v: View, text: string)
    ensures var r := OnCodeUpdate(v, BareCode(text));
      (v.opponentEmail.None? ==> r == v.(opponentCode := None)) &&
      (v.opponentEmail.Some? ==> r == v.(userCode := None))
  {
  }

  /** The page as mounted. */
  class Watcher {
    var challengerVideo: bool
    var opponentVideo: bool
    var challengerSrc: Option<StreamId>
    var opponentSrc: Option<StreamId>
    var opponentEmail: Option<string>
    var userCode: Option<string>
    var opponentCode: Option<string>

    function State(): View
      reads this
    {
      View(challengerVideo, opponentVideo, challengerSrc, opponentSrc, opponentEmail, userCode, opponentCode)
    }

    constructor (challengerVideo: bool, opponentVideo: bool)
      ensures State() == Initial(challengerVideo, opponentVideo)
    {
      this.challengerVideo := challengerVideo;
      this.opponentVideo := opponentVideo;
      challengerSrc := None;
      opponentSrc := None;
      opponentEmail := None;
      userCode := Some("// Challenger's code");
      opponentCode := Some("// Opponent's code");
    }

    /** The opponent-email request resolved with this `opponentEmail` field;
        when it fails nothing is called and the email stays undefined. */
    method OnOpponentEmail(email: Option<string>)
      modifies this
      ensures State() == old(State()).(opponentEmail := email)
    {
      opponentEmail := email;
    }

    method OnRemoteStream(stream: StreamId)
      modifies this
      ensures State() == OnStream(old(State()), stream)
    {
      if !challengerVideo || !opponentVideo {
        return;
      }
      if challengerSrc.None? {
        challengerSrc := Some(stream);
      } else if opponentSrc.None? {
        opponentSrc := Some(stream);
      }
    }

    method OnCodeUpdateEvent(p: CodeUpdatePayload)
      modifies this
      ensures State() == OnCodeUpdate(old(State()), p)
    {
      var email, code := PayloadEmail(p), PayloadCode(p);
      if email == opponentEmail {
        opponentCode := code;
      } else {
        userCode := code;
      }
    }
  }
}
