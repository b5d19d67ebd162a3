/** The message timeline of the chat window: bubbles, the map of their ids, the
    streaming bubble and the completed answers. Bubbles are plain records with an id
    and a text; the widgets that paint them are left out. */
module MessageTimeline {
  import opened Options

  // ---------------------------------------------------------------- data model

  /** Ids given by the server, and the two local ones made from a request or from a
      client message before the server's are known. */
  datatype Id = Server(n: nat) | Pending(request: nat) | Client(message: nat)

  datatype Bubble = Bubble(assistant: bool, id: Option<Id>, text: string)

  /** One accepted piece of an answer. */
  datatype Delta = Delta(sequence: Option<int>, text: string)

  function Joined(deltas: seq<Delta>): string {
    if deltas == [] then "" else Joined(deltas[..|deltas| - 1]) + deltas[|deltas| - 1].text
  }

  /** The greatest sequence number so far; 0 before the first. */
  function LastSequence(deltas: seq<Delta>): int {
    if deltas == [] then 0
    else
      var last := deltas[|deltas| - 1].sequence;
      if last.Some? then last.value else LastSequence(deltas[..|deltas| - 1])
  }

  /** The numbered deltas have strictly increasing positive numbers. */
  ghost predicate Increasing(deltas: seq<Delta>) {
    deltas == [] ||
    (var front, last := deltas[..|deltas| - 1], deltas[|deltas| - 1].sequence;
     Increasing(front) && (last.Some? ==> last.value > LastSequence(front)))
  }

  lemma {:induction false} IncreasingPairwise(deltas: seq<Delta>, i: nat, j: nat)
    requires Increasing(deltas) && i < j < |deltas|
    requires deltas[i].sequence.Some? && deltas[j].sequence.Some?
    ensures 0 < deltas[i].sequence.value < deltas[j].sequence.value
  {
    PrefixIncreases(deltas, j + 1);
    PrefixIncreases(deltas, j);
    LastIsGreatest(deltas[..j], i);
    assert deltas[..j + 1][..j] == deltas[..j];
  }

  lemma {:induction false} PrefixIncreases(deltas: seq<Delta>, n: nat)
    requires Increasing(deltas) && n <= |deltas|
    ensures Increasing(deltas[..n])
  {
    if n == |deltas| {
      assert deltas[..n] == deltas;
    } else {
      PrefixIncreases(deltas[..|deltas| - 1], n);
      assert deltas[..|deltas| - 1][..n] == deltas[..n];
    }
  }

  lemma {:induction false} LastIsGreatest(deltas: seq<Delta>, i: nat)
    requires Increasing(deltas) && i < |deltas| && deltas[i].sequence.Some?
    ensures 0 < deltas[i].sequence.value <= LastSequence(deltas)
  {
    var front := deltas[..|deltas| - 1];
    if i < |front| {
      LastIsGreatest(front, i);
    } else {
      LastIsPositive(front);
    }
  }

  lemma {:induction false} LastIsPositive(deltas: seq<Delta>)
    requires Increasing(deltas)
    ensures LastSequence(deltas) >= 0
  {
    if deltas != [] { LastIsPositive(deltas[..|deltas| - 1]); }
  }

  // -------------------------------------------------------------------- timeline

  class Timeline {
    var bubbles: seq<Bubble>
    var byId: map<Id, nat>
    var streaming: Option<nat>
    var streamingRequest: Option<nat>
    var streamingMessage: Option<nat>
    var lastSequence: int
    var completed: set<nat>
    ghost var base: string                 // what the streaming bubble held at first
    ghost var accepted: seq<Delta>         // what this episode added to it

    /** The id map and the bubbles' ids are inverse to each other, the streaming bubble
        is not a completed one, and it shows exactly the accepted deltas. */
    ghost predicate Valid()
      reads this
    {
      && (forall i | i in byId :: byId[i] < |bubbles| && bubbles[byId[i]].id == Some(i))
      && (forall b | 0 <= b < |bubbles| && bubbles[b].id.Some? :: bubbles[b].id.value in byId && byId[bubbles[b].id.value] == b)
      && (forall m | m in completed :: Server(m) in byId)
      && (streaming.Some? ==>
            && streaming.value < |bubbles|
            && (forall m | m in completed :: byId[Server(m)] != streaming.value)
            && bubbles[streaming.value].text == base + Joined(accepted)
            && lastSequence == LastSequence(accepted) && Increasing(accepted))
      && (streaming.None? ==> streamingRequest.None? && streamingMessage.None? && lastSequence == 0)
    }

    /** Nothing that was completed changes its text or its place. */
    twostate predicate CompletedKept()
      reads this
      requires old(Valid()) && Valid()
    {
      forall m | m in old(completed) ::
        && m in completed
        && byId[Server(m)] == old(byId[Server(m)])
        && bubbles[byId[Server(m)]].text == old(bubbles[byId[Server(m)]].text)
    }

    constructor ()
      ensures Valid() && bubbles == [] && completed == {}
    {
      bubbles, byId, completed := [], map[], {};
      streaming, streamingRequest, streamingMessage, lastSequence := None, None, None, 0;
      base, accepted := "", [];
    }

    /** _add_message: a known id gives the bubble that has it. */
    method AddMessage(assistant: bool, text: string, id: Option<Id>) returns (b: nat)
      requires Valid()
      modifies this`bubbles, this`byId
      ensures Valid() && CompletedKept() && b < |bubbles|
      ensures id.Some? && id.value in old(byId) ==> b == old(byId)[id.value] && bubbles == old(bubbles) && byId == old(byId)
      ensures !(id.Some? && id.value in old(byId)) ==>
                && bubbles == old(bubbles) + [Bubble(assistant, id, text)] && b == |old(bubbles)|
                && byId == if id.Some? then old(byId)[id.value := b] else old(byId)
    {
      if id.Some? && id.value in byId {
        return byId[id.value];
      }
      b := |bubbles|;
      bubbles := bubbles + [Bubble(assistant, id, text)];
      if id.Some? {
        byId := byId[id.value := b];
      }
    }

    /** _bind_message_id: the bubble takes the id, unless another one has it. */
    method BindMessageId(b: nat, id: Id) returns (r: nat)
      requires Valid() && b < |bubbles|
      requires forall m | m in completed :: byId[Server(m)] != b
      modifies this`bubbles, this`byId
      ensures r == if id in old(byId) then old(byId)[id] else b
      ensures r != b ==> bubbles == old(bubbles) && byId == old(byId)
      ensures r == b ==> bubbles == old(bubbles)[b := old(bubbles)[b].(id := Some(id))]
      ensures Valid() && CompletedKept()
    {
      if bubbles[b].id == Some(id) {
        return b;
      }
      if id in byId {
        return byId[id];
      }
      Rename(b, id);
      return b;
    }

    /** The bubble gives its old id up for a free one. */
    method Rename(b: nat, id: Id)
      requires Valid() && b < |bubbles| && id !in byId
      requires forall m | m in completed :: byId[Server(m)] != b
      modifies this`bubbles, this`byId
      ensures bubbles == old(bubbles)[b := old(bubbles)[b].(id := Some(id))]
      ensures Valid() && CompletedKept()
    {
      var previous := bubbles[b].id;
      if previous.Some? && previous.value in byId && byId[previous.value] == b {
        byId := byId - {previous.value};
      }
      bubbles := bubbles[b := bubbles[b].(id := Some(id))];
      byId := byId[id := b];
    }

    predicate Matches(request: Option<nat>, message: Option<nat>)
      reads this
    {
      && (request.Some? && streamingRequest.Some? ==> request == streamingRequest)
      && (message.Some? && streamingMessage.Some? ==> message == streamingMessage)
    }

    /** finish_assistant_message: the episode ends, unless another one is meant. */
    method FinishAssistantMessage(request: Option<nat>, message: Option<nat>) returns (ok: bool)
      requires Valid()
      modifies this`streaming, this`streamingRequest, this`streamingMessage, this`lastSequence
      ensures Valid() && CompletedKept()
      ensures ok == old(Matches(request, message))
      ensures ok ==> streaming.None?
      ensures !ok ==> streaming == old(streaming) && streamingRequest == old(streamingRequest)
                      && streamingMessage == old(streamingMessage) && lastSequence == old(lastSequence)
    {
      if !Matches(request, message) {
        return false;
      }
      streaming, streamingRequest, streamingMessage, lastSequence := None, None, None, 0;
      return true;
    }

    /** The episode goes on, with the same base and deltas. */
    twostate predicate SameEpisode()
      reads this
    {
      streaming == old(streaming) && base == old(base) && accepted == old(accepted) && lastSequence == old(lastSequence)
    }

    /** The id under which an episode looks for its bubble. */
    function EpisodeId(request: Option<nat>, message: Option<nat>): Option<Id> {
      if message.Some? then Some(Server(message.value)) else if request.Some? then Some(Pending(request.value)) else None
    }

    /** The text of the bubble with an id; empty when there is none. */
    function TextOf(id: Option<Id>): string
      reads this
    {
      if id.Some? && id.value in byId && byId[id.value] < |bubbles| then bubbles[byId[id.value]].text else ""
    }

    /** A new bubble, or a known one, becomes the streaming one. */
    method StartEpisode(request: Option<nat>, message: Option<nat>) returns (b: nat)
      requires Valid() && (message.Some? ==> message.value !in completed)
      modifies this
      ensures Valid() && CompletedKept() && completed == old(completed)
      ensures streaming == Some(b) && accepted == [] && b < |bubbles| && base == bubbles[b].text
      ensures message.Some? ==> Server(message.value) in byId && byId[Server(message.value)] == b
      ensures streamingRequest == request && streamingMessage == message && lastSequence == 0
      ensures base == old(TextOf(EpisodeId(request, message)))
      ensures var id := EpisodeId(request, message);
              bubbles == if id.Some? && id.value in old(byId) then old(bubbles) else old(bubbles) + [Bubble(true, id, "")]
    {
      var id := EpisodeId(request, message);
      b := AddMessage(true, "", id);
      IdsDiffer(b);
      OpenEpisode(b, request, message);
    }

    /** A bubble without a completed id is no completed bubble. */
    lemma IdsDiffer(b: nat)
      requires Valid() && b < |bubbles|
      requires bubbles[b].id.Some? && bubbles[b].id.value.Server? ==> bubbles[b].id.value.n !in completed
      ensures forall m | m in completed :: byId[Server(m)] != b
    {
    }

    method OpenEpisode(b: nat, request: Option<nat>, message: Option<nat>)
      requires Valid() && b < |bubbles| && forall m | m in completed :: byId[Server(m)] != b
      modifies this`streaming, this`streamingRequest, this`streamingMessage, this`lastSequence, this`base, this`accepted
      ensures Valid() && CompletedKept()
      ensures streaming == Some(b) && accepted == [] && base == bubbles[b].text
      ensures streamingRequest == request && streamingMessage == message && lastSequence == 0
    {
      streaming, streamingRequest, streamingMessage, lastSequence := Some(b), request, message, 0;
      base, accepted := bubbles[b].text, [];
      assert base + Joined(accepted) == base;
    }

    /** A delta joins the text of the streaming bubble. */
    method AppendText(text: string, sequence: Option<int>)
      requires Valid() && streaming.Some? && (sequence.Some? ==> sequence.value > lastSequence)
      modifies this`bubbles, this`lastSequence, this`accepted
      ensures Valid() && CompletedKept()
      ensures accepted == old(accepted) + [Delta(sequence, text)]
    {
      if sequence.Some? {
        lastSequence := sequence.value;
      }
      var b := streaming.value;
      ghost var deltas := accepted + [Delta(sequence, text)];
      assert deltas[..|deltas| - 1] == accepted;
      assert (base + Joined(accepted)) + text == base + Joined(deltas);
      bubbles := bubbles[b := bubbles[b].(text := bubbles[b].text + text)];
      accepted := deltas;
    }

    /** Another bubble than the streaming one has the message's id. */
    predicate Elsewhere(message: Option<nat>)
      reads this
    {
      streaming.Some? && message.Some? && Server(message.value) in byId && byId[Server(message.value)] != streaming.value
    }

    twostate predicate Untouched()
      reads this
    {
      && bubbles == old(bubbles) && byId == old(byId) && completed == old(completed)
      && streaming == old(streaming) && streamingRequest == old(streamingRequest) && streamingMessage == old(streamingMessage)
      && lastSequence == old(lastSequence) && base == old(base) && accepted == old(accepted)
    }

    /** begin_assistant_message: None when the message is completed already, or another
        bubble has its id. */
    method BeginAssistantMessage(request: Option<nat>, message: Option<nat>) returns (r: Option<nat>)
      requires Valid()
      modifies this
      ensures Valid() && CompletedKept() && completed == old(completed)
      ensures r.Some? ==> r == streaming
      ensures r.Some? && message.Some? ==>
                message.value !in completed && Server(message.value) in byId && byId[Server(message.value)] == r.value
      ensures old(streaming).Some? && old(Matches(request, None)) ==> SameEpisode()
      ensures r.Some? && old(streaming).None? ==>
                accepted == [] && lastSequence == 0 && base == old(TextOf(EpisodeId(request, message)))
      ensures r.None? <==> || (message.Some? && message.value in old(completed))
                           || (old(Matches(request, None)) && old(Elsewhere(message)))
      ensures r.None? ==> Untouched()
      ensures r.Some? && !(old(streaming).Some? && old(Matches(request, None))) ==>
                var id := EpisodeId(request, message);
                bubbles == if id.Some? && id.value in old(byId) then old(bubbles) else old(bubbles) + [Bubble(true, id, "")]
    {
      if message.Some? && message.value in completed {
        return None;
      }
      if streaming.Some? {
        if request.Some? && streamingRequest.Some? && request != streamingRequest {
          var _ := FinishAssistantMessage(None, None);
        } else {
          if message.Some? {
            var bound := BindMessageId(streaming.value, Server(message.value));
            if bound != streaming.value {
              return None;
            }
            streamingMessage := message;
          }
          return streaming;
        }
      }
      var b := StartEpisode(request, message);
      return Some(b);
    }

    /** The deltas of the episode under way, if there is one. */
    ghost function Episode(): seq<Delta>
      reads this
    {
      if streaming.Some? then accepted else []
    }

    /** append_delta: accepted only for this episode, and in increasing order. */
    method AppendDelta(text: string, request: Option<nat>, message: Option<nat>, sequence: Option<int>) returns (ok: bool)
      requires Valid()
      modifies this
      ensures Valid() && CompletedKept() && completed == old(completed)
      ensures ok ==> streaming.Some? && accepted == old(Episode()) + [Delta(sequence, text)]
      ensures ok && old(streaming).Some? ==> streaming == old(streaming) && base == old(base)
      ensures ok && old(streaming).None? ==> base == old(TextOf(EpisodeId(request, message)))
      ensures ok <==> && !(message.Some? && message.value in old(completed))
                      && old(Matches(request, message)) && (sequence.Some? ==> sequence.value > old(lastSequence))
                      && !old(Elsewhere(message))
      ensures !ok ==> Untouched()
    {
      if message.Some? && message.value in completed {
        return false;
      }
      if !Matches(request, message) {
        return false;
      }
      if sequence.Some? && sequence.value <= lastSequence {
        return false;
      }
      ghost var before := Episode();
      var bubble := BeginAssistantMessage(request, message);
      if bubble.None? {
        return false;
      }
      assert accepted == before;
      AppendText(text, sequence);
      return true;
    }

    /** complete_assistant_message: the answer's final text, once. */
    method CompleteAssistantMessage(content: string, request: nat, message: Option<nat>) returns (ok: bool)
      requires Valid()
      modifies this
      ensures Valid() && CompletedKept()
      ensures ok ==> message.Some? && completed == old(completed) + {message.value} && message.value !in old(completed)
      ensures ok ==> bubbles[byId[Server(message.value)]].text == content && streaming.None?
      ensures ok <==> && message.Some? && message.value !in old(completed)
                      && old(Matches(Some(request), message)) && !old(Elsewhere(message))
      ensures !ok ==> Untouched()
    {
      if message.None? || message.value in completed || !Matches(Some(request), message) {
        return false;
      }
      var bubble := BeginAssistantMessage(Some(request), message);
      if bubble.None? {
        return false;
      }
      Seal(content, message.value);
      return true;
    }

    /** The streaming bubble gets its final text and counts as completed. */
    method Seal(content: string, message: nat)
      requires Valid() && streaming.Some? && message !in completed
      requires Server(message) in byId && byId[Server(message)] == streaming.value
      modifies this
      ensures Valid() && CompletedKept() && streaming.None? && byId == old(byId)
      ensures completed == old(completed) + {message} && bubbles[byId[Server(message)]].text == content
    {
      var b := streaming.value;
      if bubbles[b].text != content {
        bubbles := bubbles[b := bubbles[b].(text := content)];
      }
      streaming, streamingRequest, streamingMessage, lastSequence := None, None, None, 0;
      completed := completed + {message};
    }

    /** append_user_message: a new user turn ends the episode. */
    method AppendUserMessage(text: string, client: Option<nat>) returns (b: nat)
      requires Valid()
      modifies this
      ensures Valid() && CompletedKept() && completed == old(completed)
      ensures streaming.None? && b < |bubbles|
      ensures client.Some? ==> Client(client.value) in byId && byId[Client(client.value)] == b
      ensures if client.Some? && Client(client.value) in old(byId) then bubbles == old(bubbles)
              else bubbles == old(bubbles) + [Bubble(false, if client.Some? then Some(Client(client.value)) else None, text)]
    {
      if streaming.Some? {
        var _ := FinishAssistantMessage(None, None);
      }
      b := AddMessage(false, text, if client.Some? then Some(Client(client.value)) else None);
    }

    /** The user's bubble changes its local id for the server's, if that is free. */
    method BindUserMessageId(client: nat, user: nat)
      requires Valid()
      modifies this`bubbles, this`byId
      ensures Valid() && CompletedKept()
      ensures Client(client) in old(byId) && Server(user) !in old(byId) ==>
                Server(user) in byId && byId[Server(user)] == old(byId)[Client(client)]
      ensures Client(client) !in old(byId) || Server(user) in old(byId) ==> bubbles == old(bubbles) && byId == old(byId)
    {
      if Client(client) in byId {
        IdsDiffer(byId[Client(client)]);
        assert Server(user) in byId ==> byId[Server(user)] != byId[Client(client)];
        var b := byId[Client(client)];
        var bound := BindMessageId(b, Server(user));
        assert bound == b ==> bubbles[b].id == Some(Server(user));
      }
    }

    /** bind_turn_message_ids, when the server has accepted the turn. */
    method BindTurnMessageIds(request: nat, client: nat, user: Option<nat>, assistant: Option<nat>) returns (ok: bool)
      requires Valid()
      modifies this
      ensures Valid() && CompletedKept() && completed == old(completed)
      ensures old(streaming).Some? ==> SameEpisode()
      ensures !old(Matches(Some(request), None)) ==> !ok && bubbles == old(bubbles) && byId == old(byId)
    {
      if !Matches(Some(request), None) {
        return false;
      }
      if user.Some? {
        BindUserMessageId(client, user.value);
      }
      if streaming.None? {
        var _ := BeginAssistantMessage(Some(request), assistant);
      } else if assistant.Some? {
        var bound := BindMessageId(streaming.value, Server(assistant.value));
        if bound != streaming.value {
          return false;
        }
        streamingMessage := assistant;
      }
      return true;
    }

    method ClearConversation()
      requires Valid()
      modifies this
      ensures Valid() && bubbles == [] && byId == map[] && completed == {} && streaming.None?
    {
      streaming, streamingRequest, streamingMessage, lastSequence := None, None, None, 0;
      completed, byId, bubbles := {}, map[], [];
    }

    /** load_messages: the stored conversation replaces the shown one. */
    method LoadMessages(messages: seq<Stored>)
      requires Valid()
      modifies this
      ensures Valid() && streaming.None?
      ensures forall m :: m in completed <==> Answered(messages, m)
      ensures forall k | 0 <= k < |messages| && messages[k].id.Some? :: Server(messages[k].id.value) in byId
      ensures forall k | 0 <= k < |messages| && messages[k].id.Some? && IsFirst(messages, k) ::
                bubbles[byId[Server(messages[k].id.value)]]
                == Bubble(messages[k].assistant, Some(Server(messages[k].id.value)), messages[k].text)
      ensures NoTwins(messages, |messages|) ==>
                |bubbles| == |messages| && forall k | 0 <= k < |messages| ::
                  && bubbles[k].assistant == messages[k].assistant && bubbles[k].text == messages[k].text
                  && bubbles[k].id == if messages[k].id.Some? then Some(Server(messages[k].id.value)) else None
    {
      ClearConversation();
      for k := 0 to |messages|
        invariant Valid() && streaming.None?
        invariant forall m :: m in completed <==> Answered(messages[..k], m)
        invariant (bubbles, byId) == Loaded(messages, k)
      {
        LoadMessage(messages, k);
      }
      assert messages[..|messages|] == messages;
      LoadedShows(messages);
    }

    method LoadMessage(messages: seq<Stored>, k: nat)
      requires Valid() && streaming.None? && k < |messages| && (bubbles, byId) == Loaded(messages, k)
      requires forall m :: m in completed <==> Answered(messages[..k], m)
      modifies this`bubbles, this`byId, this`completed
      ensures Valid() && streaming.None? && (bubbles, byId) == Loaded(messages, k + 1)
      ensures forall m :: m in completed <==> Answered(messages[..k + 1], m)
    {
      var message := messages[k];
      var id := if message.id.Some? then Some(Server(message.id.value)) else None;
      var _ := AddMessage(message.assistant, message.text, id);
      AnsweredNext(messages, k);
      LoadedHas(messages, k + 1, k);
      if message.assistant && message.id.Some? && !message.generating {
        completed := completed + {message.id.value};
      }
    }
  }

  /** A message of the stored conversation. */
  datatype Stored = Stored(assistant: bool, id: Option<nat>, text: string, generating: bool)

  function BubbleOf(message: Stored): Bubble {
    Bubble(message.assistant, if message.id.Some? then Some(Server(message.id.value)) else None, message.text)
  }

  /** No earlier message has the same id. */
  predicate IsFirst(messages: seq<Stored>, k: nat)
    requires k < |messages|
  {
    forall j | 0 <= j < k :: messages[j].id != messages[k].id
  }

  /** The bubbles and their ids after the first k messages. */
  function Loaded(messages: seq<Stored>, k: nat): (seq<Bubble>, map<Id, nat>)
    requires k <= |messages|
  {
    if k == 0 then ([], map[])
    else
      var (shown, ids) := Loaded(messages, k - 1);
      var b := BubbleOf(messages[k - 1]);
      if b.id.Some? && b.id.value in ids then (shown, ids)
      else (shown + [b], if b.id.Some? then ids[b.id.value := |shown|] else ids)
  }

  lemma {:induction false} LoadedHas(messages: seq<Stored>, n: nat, k: nat)
    requires k < n <= |messages|
    ensures messages[k].id.Some? ==> Server(messages[k].id.value) in Loaded(messages, n).1
  {
    if k < n - 1 {
      LoadedHas(messages, n - 1, k);
    }
  }

  /** Whatever id is taken, an earlier message has it. */
  lemma {:induction false} LoadedFrom(messages: seq<Stored>, n: nat, id: Id) returns (k: nat)
    requires n <= |messages| && id in Loaded(messages, n).1
    ensures k < n && id.Server? && messages[k].id == Some(id.n)
  {
    if id in Loaded(messages, n - 1).1 {
      k := LoadedFrom(messages, n - 1, id);
    } else {
      k := n - 1;
    }
  }

  lemma {:induction false} LoadedFirst(messages: seq<Stored>, n: nat, k: nat)
    requires k < n <= |messages| && messages[k].id.Some? && IsFirst(messages, k)
    ensures var (shown, ids) := Loaded(messages, n);
            var id := Server(messages[k].id.value);
            id in ids && ids[id] < |shown| && shown[ids[id]] == BubbleOf(messages[k])
  {
    if k < n - 1 {
      LoadedFirst(messages, n - 1, k);
      LoadedHas(messages, n - 1, k);
    } else if Server(messages[k].id.value) in Loaded(messages, k).1 {
      var j := LoadedFrom(messages, k, Server(messages[k].id.value));
    }
  }

  lemma {:induction false} LoadedPlain(messages: seq<Stored>, n: nat)
    requires n <= |messages| && NoTwins(messages, n)
    ensures var shown := Loaded(messages, n).0; |shown| == n && forall k | 0 <= k < n :: shown[k] == BubbleOf(messages[k])
  {
    if n > 0 {
      LoadedPlain(messages, n - 1);
      var b := BubbleOf(messages[n - 1]);
      if b.id.Some? && b.id.value in Loaded(messages, n - 1).1 {
        var j := LoadedFrom(messages, n - 1, b.id.value);
      }
    }
  }

  lemma LoadedShows(messages: seq<Stored>)
    ensures var (shown, ids) := Loaded(messages, |messages|);
            && (forall k | 0 <= k < |messages| && messages[k].id.Some? :: Server(messages[k].id.value) in ids)
            && (forall k | 0 <= k < |messages| && messages[k].id.Some? && IsFirst(messages, k) ::
                  ids[Server(messages[k].id.value)] < |shown| && shown[ids[Server(messages[k].id.value)]] == BubbleOf(messages[k]))
            && (NoTwins(messages, |messages|) ==>
                  |shown| == |messages| && forall k | 0 <= k < |messages| :: shown[k] == BubbleOf(messages[k]))
  {
    forall k | 0 <= k < |messages| && messages[k].id.Some? ensures Server(messages[k].id.value) in Loaded(messages, |messages|).1 {
      LoadedHas(messages, |messages|, k);
    }
    forall k | 0 <= k < |messages| && messages[k].id.Some? && IsFirst(messages, k)
      ensures var (shown, ids) := Loaded(messages, |messages|);
              ids[Server(messages[k].id.value)] < |shown| && shown[ids[Server(messages[k].id.value)]] == BubbleOf(messages[k])
    {
      LoadedFirst(messages, |messages|, k);
    }
    if NoTwins(messages, |messages|) {
      LoadedPlain(messages, |messages|);
    }
  }

  predicate NoTwins(messages: seq<Stored>, n: nat)
    requires n <= |messages|
  {
    forall k | 0 <= k < n && messages[k].id.Some? :: IsFirst(messages, k)
  }

  lemma AnsweredNext(messages: seq<Stored>, k: nat)
    requires k < |messages|
    ensures forall m: nat :: Answered(messages[..k + 1], m) <==>
              Answered(messages[..k], m) || (messages[k].assistant && messages[k].id == Some(m) && !messages[k].generating)
  {
    assert messages[..k + 1] == messages[..k] + [messages[k]];
    forall m: nat | messages[k].assistant && messages[k].id == Some(m) && !messages[k].generating
      ensures Answered(messages[..k + 1], m)
    {
      assert messages[..k + 1][k] == messages[k];
    }
    forall m: nat | Answered(messages[..k], m) ensures Answered(messages[..k + 1], m) {
      var j :| 0 <= j < k && messages[..k][j].assistant && messages[..k][j].id == Some(m) && !messages[..k][j].generating;
      assert messages[..k + 1][j] == messages[..k][j];
    }
  }

  predicate Answered(messages: seq<Stored>, m: nat) {
    exists k :: 0 <= k < |messages| && messages[k].assistant && messages[k].id == Some(m) && !messages[k].generating
  }
}
