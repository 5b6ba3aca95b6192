/**
 * The values the public chat page works with, and the invariants its state keeps between
 * continuations: message ids come from the generator and are distinct, at most the latest
 * connect attempt is live, and every running `says` handler's message shows its buffer.
 */
module ChatModel {
  import opened Wrappers
  import opened Messages

  datatype ConnectionState = Idle | Connecting | Connected | Error

  /** A value the SDK throws or rejects with: an `Error` with its message, or anything else. */
  datatype Thrown = ErrorObject(message: string) | NonError

  /** `err instanceof Error ? err.message : fallback`. */
  function MessageOf(thrown: Thrown, fallback: string): string {
    match thrown
    case ErrorObject(m) => m
    case NonError => fallback
  }

  const ConnectionFailed: string := "Connection failed"
  const SendFailed: string := "Failed to send message"

  /** The Soul SDK object one connect attempt creates, with the arguments it is built from. */
  datatype Soul = Soul(attempt: nat, organization: string, blueprint: string, soulId: string,
                       url: string, tokenUrl: string)

  /** What submit hands to `dispatch`: `said("User", text)`. */
  datatype Said = Said(speaker: string, text: string)

  /** Every message id was drawn from the generator, and no two messages share one. */
  ghost predicate IdsIssued(messages: seq<ChatMessage>, issued: set<string>) {
    && (forall i :: 0 <= i < |messages| ==> messages[i].id in issued)
    && DistinctIds(messages)
  }

  /**
   * Only the attempt whose cleanup is pending may be live; it is the latest one and it
   * owns `soulRef`. Every other attempt has been cancelled.
   */
  ghost predicate AttemptsValid(cancelled: seq<bool>, cleanup: Option<nat>, soulRef: Option<Soul>) {
    && (cleanup.Some? ==> cleanup.value == |cancelled| - 1 && !cancelled[cleanup.value])
    && (forall j :: 0 <= j < |cancelled| && cleanup != Some(j) ==> cancelled[j])
    && (soulRef.Some? <==> cleanup.Some?)
    && (soulRef.Some? ==> soulRef.value.attempt == cleanup.value)
  }

  /** A new attempt starts while no cleanup is pending: it is the only live one. */
  lemma {:induction false} StartAttempt(cancelled: seq<bool>, soulRef: Option<Soul>, soul: Soul)
    requires AttemptsValid(cancelled, None, soulRef) && soul.attempt == |cancelled|
    ensures AttemptsValid(cancelled + [false], Some(|cancelled|), Some(soul))
  {
    var c := cancelled + [false];
    forall j | 0 <= j < |c| && Some(|cancelled|) != Some(j) ensures c[j] {
      assert c[j] == cancelled[j];
    }
  }

  /** The pending cleanup cancels the live attempt: afterwards every attempt is cancelled. */
  lemma {:induction false} CancelAttempt(cancelled: seq<bool>, k: nat, soulRef: Option<Soul>)
    requires AttemptsValid(cancelled, Some(k), soulRef)
    ensures k < |cancelled|
    ensures AttemptsValid(cancelled[k := true], None, None)
  {
    var c := cancelled[k := true];
    forall j | 0 <= j < |c| ensures c[j] {
      if j != k {
        assert cancelled[j];
      }
    }
  }

  /**
   * Every running streaming handler's message shows exactly its buffer, which is the
   * concatenation of the chunks it has received; every awaiting handler's message is still empty.
   */
  ghost predicate HandlersValid(messages: seq<ChatMessage>, streams: map<string, string>,
                                received: map<string, seq<string>>, awaiting: set<string>) {
    && streams.Keys !! awaiting
    && received.Keys == streams.Keys
    && (forall id :: id in streams ==>
          ContentOf(messages, id) == Some(streams[id]) && streams[id] == Concat(received[id]))
    && (forall id :: id in awaiting ==> ContentOf(messages, id) == Some(""))
  }

  /** Appending a message with a fresh id keeps the ids distinct and every handler's view. */
  lemma AppendFresh(messages: seq<ChatMessage>, issued: set<string>, m: ChatMessage,
                    streams: map<string, string>, received: map<string, seq<string>>, awaiting: set<string>)
    requires IdsIssued(messages, issued) && HandlersValid(messages, streams, received, awaiting)
    requires m.id !in issued
    ensures IdsIssued(messages + [m], issued + {m.id})
    ensures HandlersValid(messages + [m], streams, received, awaiting)
    ensures ContentOf(messages + [m], m.id) == Some(m.content)
    ensures m.id !in streams && m.id !in awaiting
  {
    ghost var r := messages + [m];
    assert forall i :: 0 <= i < |messages| ==> r[i] == messages[i];
    forall other | other in streams || other in awaiting
      ensures ContentOf(r, other) == ContentOf(messages, other) && other != m.id
    {
      ContentOfAppend(messages, m, other);
      ContentOfHasId(messages, other);
    }
    ContentOfAppend(messages, m, m.id);
    ContentOfHasId(messages, m.id);
  }

  /** Drawing more ids keeps every message's id among the drawn ones. */
  lemma IssuedGrows(messages: seq<ChatMessage>, issued: set<string>, more: set<string>)
    requires IdsIssued(messages, issued) && issued <= more
    ensures IdsIssued(messages, more)
  {
  }

  /** Replacing a content keeps every message's id. */
  lemma SetContentKeepsIds(messages: seq<ChatMessage>, issued: set<string>, id: string, content: string)
    requires IdsIssued(messages, issued)
    ensures IdsIssued(SetContent(messages, id, content), issued)
  {
    var r := SetContent(messages, id, content);
    assert forall i :: 0 <= i < |r| ==> r[i].id == messages[i].id;
  }

  /** The buffer after chunk `i` is the buffer before it followed by chunk `i`. */
  lemma BufferGrows(start: string, chunks: seq<string>, i: nat)
    requires i < |chunks|
    ensures start + Concat(chunks[..i + 1]) == (start + Concat(chunks[..i])) + chunks[i]
  {
    assert chunks[..i + 1] == chunks[..i] + [chunks[i]];
    ConcatSnoc(chunks[..i], chunks[i]);
  }

  /** A stream ends after its message got its final content `buffer`: the other handlers' views hold. */
  lemma EndKeepsHandlers(messages: seq<ChatMessage>, issued: set<string>, streams: map<string, string>,
                         received: map<string, seq<string>>, awaiting: set<string>, id: string, buffer: string)
    requires IdsIssued(messages, issued) && HandlersValid(messages, streams, received, awaiting)
    requires id in streams
    ensures IdsIssued(SetContent(messages, id, buffer), issued)
    ensures HandlersValid(SetContent(messages, id, buffer), streams - {id}, received - {id}, awaiting)
    ensures ContentOf(SetContent(messages, id, buffer), id) == Some(buffer)
  {
    SetContentKeepsIds(messages, issued, id, buffer);
    ContentOfHasId(messages, id);
    forall other
      ensures ContentOf(SetContent(messages, id, buffer), other) ==
        if other == id then Some(buffer) else ContentOf(messages, other)
    {
      ContentOfSetContent(messages, id, buffer, other);
    }
  }

  /** A new handler starts: a streaming one with an empty buffer, or one awaiting `content()`. */
  lemma StartHandler(messages: seq<ChatMessage>, streams: map<string, string>,
                     received: map<string, seq<string>>, awaiting: set<string>, id: string, isStreaming: bool)
    requires HandlersValid(messages, streams, received, awaiting)
    requires ContentOf(messages, id) == Some("") && id !in streams && id !in awaiting
    ensures isStreaming ==> HandlersValid(messages, streams[id := ""], received[id := []], awaiting)
    ensures !isStreaming ==> HandlersValid(messages, streams, received, awaiting + {id})
  {
    assert Concat([]) == "";
  }

  /**
   * A chunk arrives for stream `id`: with the buffer extended by the chunk and the message's
   * content replaced by the new buffer, every handler's view still holds.
   */
  lemma ChunkKeepsHandlers(messages: seq<ChatMessage>, issued: set<string>, streams: map<string, string>,
                           received: map<string, seq<string>>, awaiting: set<string>, id: string, chunk: string,
                           buffer: string)
    requires IdsIssued(messages, issued) && HandlersValid(messages, streams, received, awaiting)
    requires id in streams && buffer == streams[id] + chunk
    ensures IdsIssued(SetContent(messages, id, buffer), issued)
    ensures HandlersValid(SetContent(messages, id, buffer), streams[id := buffer],
                          received[id := received[id] + [chunk]], awaiting)
    ensures ContentOf(SetContent(messages, id, buffer), id) == Some(buffer)
  {
    SetContentKeepsIds(messages, issued, id, buffer);
    ContentOfHasId(messages, id);
    ChunkKeepsContents(messages, streams, awaiting, id, buffer);
    ChunkKeepsBuffers(streams, received, id, chunk, buffer);
  }

  lemma ChunkKeepsContents(messages: seq<ChatMessage>, streams: map<string, string>, awaiting: set<string>,
                           id: string, buffer: string)
    requires HasId(messages, id) && id !in awaiting
    requires forall other :: other in streams ==> ContentOf(messages, other) == Some(streams[other])
    requires forall other :: other in awaiting ==> ContentOf(messages, other) == Some("")
    ensures var r := SetContent(messages, id, buffer);
      && (forall other :: other in streams[id := buffer] ==> ContentOf(r, other) == Some(streams[id := buffer][other]))
      && (forall other :: other in awaiting ==> ContentOf(r, other) == Some(""))
      && ContentOf(r, id) == Some(buffer)
  {
    forall other
      ensures ContentOf(SetContent(messages, id, buffer), other) ==
        if other == id then Some(buffer) else ContentOf(messages, other)
    {
      ContentOfSetContent(messages, id, buffer, other);
    }
  }

  lemma ChunkKeepsBuffers(streams: map<string, string>, received: map<string, seq<string>>,
                          id: string, chunk: string, buffer: string)
    requires received.Keys == streams.Keys
    requires forall other :: other in streams ==> streams[other] == Concat(received[other])
    requires id in streams && buffer == streams[id] + chunk
    ensures var streams', received' := streams[id := buffer], received[id := received[id] + [chunk]];
      && received'.Keys == streams'.Keys
      && forall other :: other in streams' ==> streams'[other] == Concat(received'[other])
  {
    ConcatSnoc(received[id], chunk);
  }

  /** The awaited content of handler `id` arrives and replaces its message's content. */
  lemma ResolveKeepsHandlers(messages: seq<ChatMessage>, issued: set<string>, streams: map<string, string>,
                             received: map<string, seq<string>>, awaiting: set<string>, id: string, text: string)
    requires IdsIssued(messages, issued) && HandlersValid(messages, streams, received, awaiting)
    requires id in awaiting
    ensures IdsIssued(SetContent(messages, id, text), issued)
    ensures HandlersValid(SetContent(messages, id, text), streams, received, awaiting - {id})
    ensures ContentOf(SetContent(messages, id, text), id) == Some(text)
  {
    var r := SetContent(messages, id, text);
    SetContentKeepsIds(messages, issued, id, text);
    ContentOfHasId(messages, id);
    forall other
      ensures ContentOf(r, other) == if other == id then Some(text) else ContentOf(messages, other)
    {
      ContentOfSetContent(messages, id, text, other);
    }
  }

}
