/**
 * The chat panel: an append-only message log, a prompt box, and a mocked assistant
 * whose reply arrives on a timer together with a fixed two-element document.
 */
module AIChat {
  import Json
  import Text

  datatype Role = User | Assistant
  datatype Message = Message(role: Role, content: string)

  const Greeting := Message(Assistant, "Describe a diagram, and I will generate it for you!")
  const MockReply := Message(Assistant, "Here is a simple diagram for you. (Mock)")

  /** The fields every drawing element must carry: identity, revision, randomisation, tombstone. */
  predicate HasRequiredFields(e: Json.Value) {
    e.Object? &&
    "id" in e.fields && e.fields["id"].Str? &&
    "version" in e.fields && e.fields["version"].Number? &&
    "versionNonce" in e.fields && e.fields["versionNonce"].Number? &&
    "seed" in e.fields && e.fields["seed"].Number? &&
    "isDeleted" in e.fields && e.fields["isDeleted"].Bool?
  }

  /**
   * A mock element: its drawing fields, stamped with its id and type, revision 1,
   * nonce 0, seed 1 and not deleted.
   */
  function MockElement(drawing: map<string, Json.Value>, id: string, kind: string): (e: Json.Value)
    ensures HasRequiredFields(e)
    ensures Json.Property(e, "id") == Json.Defined(Json.Str(id))
    ensures Json.Property(e, "type") == Json.Defined(Json.Str(kind))
    ensures Json.Property(e, "version") == Json.Defined(Json.Number(1.0))
    ensures Json.Property(e, "versionNonce") == Json.Defined(Json.Number(0.0))
    ensures Json.Property(e, "seed") == Json.Defined(Json.Number(1.0))
    ensures Json.Property(e, "isDeleted") == Json.Defined(Json.Bool(false))
  {
    Json.Object(drawing
      ["seed" := Json.Number(1.0)]
      ["versionNonce" := Json.Number(0.0)]
      ["isDeleted" := Json.Bool(false)]
      ["version" := Json.Number(1.0)]
      ["type" := Json.Str(kind)]
      ["id" := Json.Str(id)])
  }

  /**
   * The document the mocked assistant produces: a rectangle `rect-1` and a text
   * `text-1` ("AI Generated!"), both at version 1, not deleted, with distinct ids.
   */
  function MockDocument(): (doc: seq<Json.Value>)
    ensures |doc| == 2
    ensures forall e :: e in doc ==> HasRequiredFields(e)
    ensures Json.Property(doc[0], "id") == Json.Defined(Json.Str("rect-1"))
    ensures Json.Property(doc[0], "type") == Json.Defined(Json.Str("rectangle"))
    ensures Json.Property(doc[1], "id") == Json.Defined(Json.Str("text-1"))
    ensures Json.Property(doc[1], "type") == Json.Defined(Json.Str("text"))
    ensures forall e :: e in doc ==>
      Json.Property(e, "version") == Json.Defined(Json.Number(1.0)) &&
      Json.Property(e, "isDeleted") == Json.Defined(Json.Bool(false))
    ensures Json.Property(doc[0], "id") != Json.Property(doc[1], "id")
  {
    var rectangle := map[
      "fillStyle" := Json.Str("hachure"), "strokeWidth" := Json.Number(1.0), "strokeStyle" := Json.Str("solid"),
      "roughness" := Json.Number(1.0), "opacity" := Json.Number(100.0), "angle" := Json.Number(0.0),
      "x" := Json.Number(100.0), "y" := Json.Number(100.0),
      "strokeColor" := Json.Str("#000000"), "backgroundColor" := Json.Str("#ffc9c9"),
      "width" := Json.Number(200.0), "height" := Json.Number(100.0),
      "groupIds" := Json.Array([]), "roundness" := Json.Null, "boundElements" := Json.Array([]),
      "updated" := Json.Number(1.0), "link" := Json.Null, "locked" := Json.Bool(false)
    ];
    var text := map[
      "fillStyle" := Json.Str("hachure"), "strokeWidth" := Json.Number(1.0), "strokeStyle" := Json.Str("solid"),
      "roughness" := Json.Number(1.0), "opacity" := Json.Number(100.0), "angle" := Json.Number(0.0),
      "x" := Json.Number(120.0), "y" := Json.Number(135.0),
      "strokeColor" := Json.Str("#000000"), "backgroundColor" := Json.Str("transparent"),
      "width" := Json.Number(160.0), "height" := Json.Number(30.0),
      "groupIds" := Json.Array([]), "roundness" := Json.Null, "boundElements" := Json.Array([]),
      "updated" := Json.Number(1.0), "link" := Json.Null, "locked" := Json.Bool(false),
      "fontSize" := Json.Number(20.0), "fontFamily" := Json.Number(1.0), "text" := Json.Str("AI Generated!"),
      "textAlign" := Json.Str("center"), "verticalAlign" := Json.Str("middle"), "baseline" := Json.Number(18.0),
      "containerId" := Json.Null, "originalText" := Json.Str("AI Generated!")
    ];
    [MockElement(rectangle, "rect-1", "rectangle"), MockElement(text, "text-1", "text")]
  }

  /** How many messages of the log have the given role. */
  function Count(log: seq<Message>, role: Role): nat {
    if log == [] then 0 else (if log[0].role == role then 1 else 0) + Count(log[1..], role)
  }

  /** Appending one message raises the count of its role by one and leaves the other alone. */
  lemma {:induction false} CountAppend(log: seq<Message>, m: Message, role: Role)
    ensures Count(log + [m], role) == Count(log, role) + (if m.role == role then 1 else 0)
  {
    if log != [] {
      assert (log + [m])[1..] == log[1..] + [m];
      CountAppend(log[1..], m, role);
    } else {
      assert [m][1..] == [];
    }
  }

  /** Every document handed over is the mock document. */
  ghost predicate AllMock(docs: seq<seq<Json.Value>>) {
    forall d :: d in docs ==> d == MockDocument()
  }

  class Chat {
    var prompt: string
    var messages: seq<Message>
    var loading: bool
    /** Mock replies whose timer has not fired yet. */
    var pendingReplies: nat
    /** The documents handed to `onJsonUpdate`, oldest first (their serialisation is not modelled). */
    var emitted: seq<seq<Json.Value>>

    /**
     * The log opens with the greeting; every user message is answered by exactly one
     * reply, already logged or still pending; each reply came with one mock document;
     * and the typing indicator is on only while a reply is pending.
     */
    ghost predicate Valid()
      reads this
    {
      |messages| >= 1 && messages[0] == Greeting &&
      Count(messages, User) + 1 == Count(messages, Assistant) + pendingReplies &&
      |emitted| + 1 == Count(messages, Assistant) &&
      AllMock(emitted) &&
      (loading ==> pendingReplies > 0)
    }

    constructor ()
      ensures Valid()
      ensures prompt == "" && messages == [Greeting] && !loading && pendingReplies == 0 && emitted == []
    {
      prompt, messages, loading, pendingReplies, emitted := "", [Greeting], false, 0, [];
      assert [Greeting][1..] == [];
    }

    /**
     * `handleSend`: a blank prompt changes nothing; otherwise the untrimmed prompt is
     * appended as one user message, the prompt is cleared, the indicator is set and
     * one reply is scheduled.
     */
    method Send()
      requires Valid()
      modifies this`prompt, this`messages, this`loading, this`pendingReplies
      ensures Valid()
      ensures Text.IsBlank(old(prompt)) ==>
        prompt == old(prompt) && messages == old(messages) && loading == old(loading) &&
        pendingReplies == old(pendingReplies)
      ensures !Text.IsBlank(old(prompt)) ==>
        messages == old(messages) + [Message(User, old(prompt))] && prompt == "" && loading &&
        pendingReplies == old(pendingReplies) + 1
    {
      var blank := Text.TrimsToEmpty(prompt);
      if blank {
        return;
      }
      var userMsg := Message(User, prompt);
      CountAppend(messages, userMsg, User);
      CountAppend(messages, userMsg, Assistant);
      messages := messages + [userMsg];
      prompt := "";
      loading := true;
      pendingReplies := pendingReplies + 1;
    }

    /**
     * The 1500 ms timer of one send fires: the mock reply is appended after what is
     * already logged, the mock document goes to `onJsonUpdate`, and the indicator is cleared.
     */
    method ReplyArrives()
      requires Valid() && pendingReplies > 0
      modifies this`messages, this`loading, this`pendingReplies, this`emitted
      ensures Valid()
      ensures messages == old(messages) + [MockReply]
      ensures emitted == old(emitted) + [MockDocument()]
      ensures !loading && pendingReplies == old(pendingReplies) - 1
    {
      CountAppend(messages, MockReply, User);
      CountAppend(messages, MockReply, Assistant);
      messages := messages + [MockReply];
      emitted := emitted + [MockDocument()];
      loading := false;
      pendingReplies := pendingReplies - 1;
    }
  }
}
