/**
 * The chat's message list: `{id, role, content, isStreaming}` records in insertion order,
 * updated only by appending and by the id-keyed content replacement `prev.map(...)`.
 */
module Messages {
  import opened Wrappers

  datatype Role = User | Assistant

  /** A chat message; a user message has no `isStreaming` in the source, modelled as false. */
  datatype ChatMessage = ChatMessage(id: string, role: Role, content: string, isStreaming: bool)

  predicate HasId(messages: seq<ChatMessage>, id: string) {
    exists i :: 0 <= i < |messages| && messages[i].id == id
  }

  /** No two messages share an id. */
  predicate DistinctIds(messages: seq<ChatMessage>) {
    forall i, j :: 0 <= i < j < |messages| ==> messages[i].id != messages[j].id
  }

  /**
   * `prev.map(m => m.id === id ? {...m, content} : m)`: the list keeps its length and order,
   * every message keeps its id, role and flag, messages with another id keep their content,
   * and those with the target id get the new content.
   */
  function SetContent(messages: seq<ChatMessage>, id: string, content: string): (r: seq<ChatMessage>)
    ensures |r| == |messages|
    ensures forall i :: 0 <= i < |r| ==>
      r[i] == if messages[i].id == id then messages[i].(content := content) else messages[i]
  {
    if messages == [] then []
    else
      var head := if messages[0].id == id then messages[0].(content := content) else messages[0];
      [head] + SetContent(messages[1..], id, content)
  }

  /** Updating an id that is not in the list leaves the list as it is. */
  lemma SetContentAbsent(messages: seq<ChatMessage>, id: string, content: string)
    requires !HasId(messages, id)
    ensures SetContent(messages, id, content) == messages
  {
    var r := SetContent(messages, id, content);
    assert forall i :: 0 <= i < |r| ==> r[i] == messages[i];
  }

  /** The last replacement wins: two updates of one message equal the second alone. */
  lemma {:induction false} SetContentOverwrite(messages: seq<ChatMessage>, id: string, first: string, second: string)
    ensures SetContent(SetContent(messages, id, first), id, second) == SetContent(messages, id, second)
  {
    if messages != [] {
      SetContentOverwrite(messages[1..], id, first, second);
      assert SetContent(messages, id, first)[1..] == SetContent(messages[1..], id, first);
    }
  }

  /** Updates of two different messages commute, so neither can lose the other's content. */
  lemma {:induction false} SetContentCommute(messages: seq<ChatMessage>, a: string, ca: string, b: string, cb: string)
    requires a != b
    ensures SetContent(SetContent(messages, a, ca), b, cb) == SetContent(SetContent(messages, b, cb), a, ca)
  {
    if messages != [] {
      SetContentCommute(messages[1..], a, ca, b, cb);
      assert SetContent(messages, a, ca)[1..] == SetContent(messages[1..], a, ca);
      assert SetContent(messages, b, cb)[1..] == SetContent(messages[1..], b, cb);
    }
  }

  /**
   * An update and an append of another message commute: a message appended while a stream
   * is running is kept, and the stream's message is updated as if the append came later.
   */
  lemma {:induction false} SetContentAppend(messages: seq<ChatMessage>, x: ChatMessage, id: string, content: string)
    requires x.id != id
    ensures SetContent(messages + [x], id, content) == SetContent(messages, id, content) + [x]
  {
    if messages != [] {
      SetContentAppend(messages[1..], x, id, content);
      assert (messages + [x])[1..] == messages[1..] + [x];
    }
  }

  /** The content of the first message with `id`, if there is one. */
  function ContentOf(messages: seq<ChatMessage>, id: string): Option<string> {
    if messages == [] then None
    else if messages[0].id == id then Some(messages[0].content)
    else ContentOf(messages[1..], id)
  }

  /** ContentOf finds a message exactly when the id is in the list. */
  lemma {:induction false} ContentOfHasId(messages: seq<ChatMessage>, id: string)
    ensures ContentOf(messages, id).Some? <==> HasId(messages, id)
  {
    if messages != [] {
      ContentOfHasId(messages[1..], id);
      if messages[0].id != id && HasId(messages, id) {
        var i :| 0 <= i < |messages| && messages[i].id == id;
        assert messages[1..][i - 1].id == id;
      }
    }
  }

  /** After an update, the target's content is the new content and every other content is unchanged. */
  lemma {:induction false} ContentOfSetContent(messages: seq<ChatMessage>, id: string, content: string, other: string)
    ensures ContentOf(SetContent(messages, id, content), other) ==
      if other == id && HasId(messages, id) then Some(content) else ContentOf(messages, other)
  {
    ContentOfHasId(messages, id);
    if messages != [] {
      ContentOfSetContent(messages[1..], id, content, other);
      ContentOfHasId(messages[1..], id);
      assert SetContent(messages, id, content)[1..] == SetContent(messages[1..], id, content);
    }
  }

  /** Appending a message does not change the content found for an id already in the list. */
  lemma {:induction false} ContentOfAppend(messages: seq<ChatMessage>, x: ChatMessage, id: string)
    ensures ContentOf(messages + [x], id) ==
      if HasId(messages, id) then ContentOf(messages, id)
      else if x.id == id then Some(x.content) else None
  {
    ContentOfHasId(messages, id);
    if messages != [] {
      ContentOfAppend(messages[1..], x, id);
      ContentOfHasId(messages[1..], id);
      assert (messages + [x])[1..] == messages[1..] + [x];
    }
  }

  /** Setting a message's content to what it already holds changes nothing, when ids are distinct. */
  lemma {:induction false} SetContentSame(messages: seq<ChatMessage>, id: string, content: string)
    requires DistinctIds(messages) && ContentOf(messages, id) == Some(content)
    ensures SetContent(messages, id, content) == messages
  {
    if messages != [] {
      if messages[0].id == id {
        SetContentAbsent(messages[1..], id, content);
      } else {
        assert DistinctIds(messages[1..]) by {
          forall i, j | 0 <= i < j < |messages[1..]| ensures messages[1..][i].id != messages[1..][j].id {
            assert messages[1..][i] == messages[i + 1] && messages[1..][j] == messages[j + 1];
          }
        }
        SetContentSame(messages[1..], id, content);
      }
    }
  }

  /** The running buffer of a stream: the concatenation of its chunks in arrival order. */
  function Concat(chunks: seq<string>): string {
    if chunks == [] then "" else chunks[0] + Concat(chunks[1..])
  }

  /** One more chunk extends the buffer by exactly that chunk: `buffer += chunk`. */
  lemma {:induction false} ConcatSnoc(chunks: seq<string>, chunk: string)
    ensures Concat(chunks + [chunk]) == Concat(chunks) + chunk
  {
    if chunks != [] {
      ConcatSnoc(chunks[1..], chunk);
      assert (chunks + [chunk])[1..] == chunks[1..] + [chunk];
    }
  }
}
