/** The wire events of the orchestrator, reduced to the fields the modelled code reads. */
module Events {
  import opened Common

  datatype Risk = LOW | MEDIUM | HIGH | HALT

  datatype ChatMessage = ChatMessage(
    messageId: string, channelId: string, authorId: string, body: string, ts: int, streaming: bool)

  datatype ChannelUpdate = ChannelUpdate(messageId: string, deltaText: string, done: bool)

  datatype ConfirmationRequest = ConfirmationRequest(
    callId: string, summary: string, risk: Risk, invokerSmeId: string)

  datatype ChannelInfo = ChannelInfo(id: string, unreadHint: nat)

  /** What the bus hands to a transport. `Other` stands for every kind the bus treats alike. */
  datatype Event =
    | Chat(msg: ChatMessage)
    | Delta(upd: ChannelUpdate)
    | Confirm(req: ConfirmationRequest)
    | BackpressureNotice(dropped: nat, sinceTs: int)
    | Presence(sessionId: string, client: string, online: bool)
    | ChannelList(channels: seq<ChannelInfo>)
    | ReplayDone(resumeTs: int, checkpointId: Option<string>)
    | Ping(nonce: string)
    | Other(kind: string)

  /** The chat messages among `es`, in order. */
  function Chats(es: seq<Event>): seq<ChatMessage> {
    if es == [] then []
    else Chats(es[..|es| - 1]) + (if es[|es| - 1].Chat? then [es[|es| - 1].msg] else [])
  }

  lemma {:induction false} ChatsConcat(a: seq<Event>, b: seq<Event>)
    ensures Chats(a + b) == Chats(a) + Chats(b)
  {
    if b == [] {
      assert a + b == a;
    } else {
      var c := a + b;
      assert c[..|c| - 1] == a + b[..|b| - 1];
      ChatsConcat(a, b[..|b| - 1]);
    }
  }

  lemma ChatsOne(e: Event)
    ensures Chats([e]) == if e.Chat? then [e.msg] else []
  {
    assert [e][..0] == [];
  }

  lemma ChatsSnoc(es: seq<Event>, e: Event)
    ensures Chats(es + [e]) == Chats(es) + (if e.Chat? then [e.msg] else [])
  {
    assert (es + [e])[..|es|] == es;
  }

  lemma ChatsRemoveOther(es: seq<Event>, i: nat)
    requires i < |es| && !es[i].Chat?
    ensures Chats(RemoveAt(es, i)) == Chats(es)
  {
    var a, b := es[..i], es[i + 1..];
    var c := a + [es[i]];
    assert es == c + b && RemoveAt(es, i) == a + b;
    ChatsConcat(a, b);
    ChatsConcat(c, b);
    ChatsSnoc(a, es[i]);
    hide Chats;
  }

  function Ids(ms: seq<ChatMessage>): set<string> {
    if ms == [] then {} else Ids(ms[..|ms| - 1]) + {ms[|ms| - 1].messageId}
  }

  lemma IdsSnoc(ms: seq<ChatMessage>, m: ChatMessage)
    ensures Ids(ms + [m]) == Ids(ms) + {m.messageId}
  {
    assert (ms + [m])[..|ms|] == ms;
  }

  /** The messages of `ms` whose id is neither in `seen` nor carried by an earlier element. */
  function FirstSeen(seen: set<string>, ms: seq<ChatMessage>): seq<ChatMessage> {
    if ms == [] then []
    else
      var front, last := ms[..|ms| - 1], ms[|ms| - 1];
      FirstSeen(seen, front) + (if last.messageId in seen + Ids(front) then [] else [last])
  }

  lemma FirstSeenSnoc(seen: set<string>, ms: seq<ChatMessage>, m: ChatMessage)
    ensures FirstSeen(seen, ms + [m]) == FirstSeen(seen, ms) + (if m.messageId in seen + Ids(ms) then [] else [m])
  {
    assert (ms + [m])[..|ms|] == ms;
  }

  lemma {:induction false} IdsConcat(a: seq<ChatMessage>, b: seq<ChatMessage>)
    ensures Ids(a + b) == Ids(a) + Ids(b)
  {
    if b == [] {
      assert a + b == a;
    } else {
      var front, last := b[..|b| - 1], b[|b| - 1];
      IdsConcat(a, front);
      assert a + b == (a + front) + [last];
      IdsSnoc(a + front, last);
    }
  }

  lemma {:induction false} FirstSeenConcat(seen: set<string>, a: seq<ChatMessage>, b: seq<ChatMessage>)
    ensures FirstSeen(seen, a + b) == FirstSeen(seen, a) + FirstSeen(seen + Ids(a), b)
  {
    if b == [] {
      assert a + b == a;
    } else {
      var front, last := b[..|b| - 1], b[|b| - 1];
      FirstSeenConcat(seen, a, front);
      assert a + b == (a + front) + [last];
      FirstSeenSnoc(seen, a + front, last);
      IdsConcat(a, front);
      assert seen + Ids(a + front) == (seen + Ids(a)) + Ids(front);
    }
  }
}
