/**
 * The session core of the public chat page once React, the websocket and the Soul SDK are
 * taken away: identity resolution on mount, the connect effect with its per-attempt
 * `cancelled` flag and cleanup, the `says` handler that builds assistant messages, and
 * the submit handler. Each asynchronous continuation is a method; a run of the page is
 * any sequence of calls the React lifecycle allows.
 */
module Chat {
  import opened Wrappers
  import opened JsString
  import opened Hosts
  import opened SoulIdentity
  import opened Messages
  import opened Uuid
  import opened ChatModel

  class ChatSession {
    const ids: UuidSource
    const wsHost: string
    const httpHost: string
    /** The `chatId` prop, which follows the page's URL. */
    var chatId: Option<string>
    /** The local-storage value under `StorageKey`. */
    var stored: string
    /** `resolvedSoulId`. */
    var soulId: string
    var messages: seq<ChatMessage>
    var input: string
    var connectionState: ConnectionState
    var error: Option<string>
    /** `soulRef.current`. */
    var soulRef: Option<Soul>
    /** The `cancelled` flag of every connect attempt started so far, by attempt number. */
    var cancelled: seq<bool>
    /** The attempt whose effect cleanup React holds, if any. */
    var cleanup: Option<nat>
    /** The attempts whose Soul was asked to `disconnect()`, in order. */
    var disconnected: seq<nat>
    /** The `buffer` of every streaming `says` handler still in its `for await` loop, by message id. */
    var streams: map<string, string>
    /** The chunks each of those handlers has received so far. */
    ghost var received: map<string, seq<string>>
    /** The message ids of non-streaming `says` handlers still awaiting `content()`. */
    var awaiting: set<string>

    ghost predicate Valid()
      reads this, ids
    {
      && ids.Valid()
      && IdsIssued(messages, ids.issued)
      && AttemptsValid(cancelled, cleanup, soulRef)
      && HandlersValid(messages, streams, received, awaiting)
    }

    /** Attempt `k` is not the live one. */
    ghost predicate Superseded(k: nat)
      reads this
    {
      cleanup != Some(k)
    }

    /**
     * Mounting the page: the hosts the module computed once at load (`HostsFromEnv`),
     * `resolvedSoulId`, and the persist effect, which stores a freshly drawn id and nothing else.
     */
    constructor (hosts: ClientHosts, chatId: Option<string>, stored: string, ids: UuidSource)
      requires ids.Valid()
      modifies ids
      ensures Valid() && this.ids == ids && this.chatId == chatId
      ensures wsHost == hosts.wsHost && httpHost == hosts.httpHost
      ensures NeedsFresh(chatId, stored) ==>
        soulId != "" && soulId !in old(ids.issued) && ids.issued == old(ids.issued) + {soulId}
      ensures !NeedsFresh(chatId, stored) ==>
        soulId == Resolve(chatId, stored, "") && ids.issued == old(ids.issued)
      ensures this.stored == StoredAfter(chatId, stored, soulId)
      ensures messages == [] && input == "" && connectionState == Idle && error == None
      ensures soulRef == None && cancelled == [] && cleanup == None && disconnected == []
      ensures streams == map[] && awaiting == {}
    {
      this.ids := ids;
      this.chatId := chatId;
      wsHost := hosts.wsHost;
      httpHost := hosts.httpHost;
      var generated := "";
      if NeedsFresh(chatId, stored) {
        generated := ids.Next();
      }
      var id := Resolve(chatId, stored, generated);
      soulId := id;
      this.stored := StoredAfter(chatId, stored, id);
      messages := [];
      input := "";
      connectionState := Idle;
      error := None;
      soulRef := None;
      cancelled := [];
      cleanup := None;
      disconnected := [];
      streams := map[];
      received := map[];
      awaiting := {};
    }

    /**
     * A render with a new `chatId` prop or a new stored value. The `resolvedSoulId` memo is
     * recomputed only when one of them changed, drawing a generated id only when neither
     * names one, and the persist effect then runs for the new values. `reconnect` says
     * whether the soul id changed, which is when React runs the connect effect's cleanup
     * and then the effect again.
     */
    method Rerender(newChatId: Option<string>, newStored: string) returns (reconnect: bool)
      requires Valid()
      modifies this`chatId, this`stored, this`soulId, ids
      ensures Valid() && chatId == newChatId
      ensures reconnect <==> soulId != old(soulId)
      ensures newChatId == old(chatId) && newStored == old(stored) ==>
        soulId == old(soulId) && stored == old(stored) && ids.issued == old(ids.issued)
      ensures (newChatId != old(chatId) || newStored != old(stored)) ==>
        && (NeedsFresh(newChatId, newStored) ==>
              soulId != "" && soulId !in old(ids.issued) && ids.issued == old(ids.issued) + {soulId})
        && (!NeedsFresh(newChatId, newStored) ==>
              soulId == Resolve(newChatId, newStored, "") && ids.issued == old(ids.issued))
        && stored == StoredAfter(newChatId, newStored, soulId)
    {
      if newChatId == chatId && newStored == stored {
        return false;
      }
      var generated := "";
      if NeedsFresh(newChatId, newStored) {
        generated := ids.Next();
      }
      IssuedGrows(messages, old(ids.issued), ids.issued);
      var id := Resolve(newChatId, newStored, generated);
      reconnect := id != soulId;
      chatId := newChatId;
      soulId := id;
      stored := StoredAfter(newChatId, newStored, id);
    }

    /**
     * The connect effect. Without an organization or a subroutine it does nothing and leaves
     * no cleanup; otherwise it starts a new attempt: error cleared, state `connecting`, a new
     * Soul for this session in `soulRef`, and a fresh `cancelled` flag that is false.
     */
    method RunEffect(organizationSlug: string, subroutineId: string) returns (attempt: Option<nat>)
      requires Valid() && cleanup.None?
      modifies this`cancelled, this`error, this`connectionState, this`soulRef, this`cleanup
      ensures Valid()
      ensures attempt.None? <==> (organizationSlug == "" || subroutineId == "")
      ensures attempt.None? ==>
        && cancelled == old(cancelled) && cleanup == None && soulRef == old(soulRef)
        && connectionState == old(connectionState) && error == old(error)
      ensures attempt.Some? ==>
        && attempt.value == |old(cancelled)|
        && cancelled == old(cancelled) + [false]
        && cleanup == attempt
        && connectionState == Connecting && error == None
        && soulRef == Some(Soul(attempt.value, organizationSlug, subroutineId, soulId,
                                ExperienceUrl(wsHost, organizationSlug), TokenUrl(httpHost)))
    {
      if organizationSlug == "" || subroutineId == "" {
        return None;
      }
      var k := |cancelled|;
      var soul := Soul(k, organizationSlug, subroutineId, soulId,
                       ExperienceUrl(wsHost, organizationSlug), TokenUrl(httpHost));
      StartAttempt(cancelled, soulRef, soul);
      cancelled := cancelled + [false];
      error := None;
      connectionState := Connecting;
      soulRef := Some(soul);
      cleanup := Some(k);
      attempt := Some(k);
    }

    /**
     * The effect's cleanup (unmount, or a dependency change before the effect runs again):
     * the attempt is cancelled, `soulRef` is cleared and that Soul is asked to disconnect.
     * Connection state and error are left as they were.
     */
    method Cleanup()
      requires Valid() && cleanup.Some?
      modifies this`cancelled, this`soulRef, this`cleanup, this`disconnected
      ensures Valid()
      ensures cancelled == old(cancelled)[old(cleanup).value := true]
      ensures forall j :: 0 <= j < |cancelled| ==> cancelled[j]
      ensures soulRef == None && cleanup == None
      ensures disconnected == old(disconnected) + [old(soulRef).value.attempt]
      ensures connectionState == old(connectionState) && error == old(error)
    {
      var k := cleanup.value;
      CancelAttempt(cancelled, k, soulRef);
      cancelled := cancelled[k := true];
      var current := soulRef;
      soulRef := None;
      cleanup := None;
      if current.Some? {
        disconnected := disconnected + [current.value.attempt];
      }
    }

    /** `await soul.connect()` of attempt `k` resolved: `connected`, unless `k` was cancelled. */
    method ConnectResolved(k: nat)
      requires Valid() && k < |cancelled|
      modifies this`connectionState
      ensures Valid()
      ensures connectionState == if old(cancelled[k]) then old(connectionState) else Connected
      ensures Superseded(k) ==> connectionState == old(connectionState)
    {
      if !cancelled[k] {
        connectionState := Connected;
      }
    }

    /**
     * `soul.connect()` of attempt `k` threw: state `error` with the error's message, or
     * "Connection failed" for a non-Error, unless `k` was cancelled.
     */
    method ConnectRejected(k: nat, thrown: Thrown)
      requires Valid() && k < |cancelled|
      modifies this`connectionState, this`error
      ensures Valid()
      ensures old(cancelled[k]) ==> connectionState == old(connectionState) && error == old(error)
      ensures !old(cancelled[k]) ==>
        connectionState == Error && error == Some(MessageOf(thrown, ConnectionFailed))
      ensures Superseded(k) ==> connectionState == old(connectionState) && error == old(error)
    {
      if !cancelled[k] {
        connectionState := Error;
        error := Some(MessageOf(thrown, ConnectionFailed));
      }
    }

    /** The `onError` listener of attempt `k`: state `error` with the message, unless `k` was cancelled. */
    method ErrorEvent(k: nat, message: string)
      requires Valid() && k < |cancelled|
      modifies this`connectionState, this`error
      ensures Valid()
      ensures old(cancelled[k]) ==> connectionState == old(connectionState) && error == old(error)
      ensures !old(cancelled[k]) ==> connectionState == Error && error == Some(message)
      ensures Superseded(k) ==> connectionState == old(connectionState) && error == old(error)
    {
      if cancelled[k] {
        return;
      }
      connectionState := Error;
      error := Some(message);
    }

    /**
     * A `says` event: one assistant message with a fresh id, empty content and the event's
     * streaming flag goes at the end of the list, and its handler starts streaming or
     * awaiting `content()`. The handler does not look at `cancelled`.
     */
    method Says(isStreaming: bool) returns (id: string)
      requires Valid()
      modifies this`messages, this`streams, this`received, this`awaiting, ids
      ensures Valid()
      ensures id !in old(ids.issued) && ids.issued == old(ids.issued) + {id}
      ensures messages == old(messages) + [ChatMessage(id, Assistant, "", isStreaming)]
      ensures isStreaming ==>
        streams == old(streams)[id := ""] && received == old(received)[id := []] && awaiting == old(awaiting)
      ensures !isStreaming ==>
        awaiting == old(awaiting) + {id} && streams == old(streams) && received == old(received)
    {
      id := ids.Next();
      var m := ChatMessage(id, Assistant, "", isStreaming);
      AppendFresh(messages, old(ids.issued), m, streams, received, awaiting);
      StartHandler(messages + [m], streams, received, awaiting, id, isStreaming);
      messages := messages + [m];
      if isStreaming {
        streams := streams[id := ""];
        received := received[id := []];
      } else {
        awaiting := awaiting + {id};
      }
    }

    /**
     * One chunk arrives in a streaming handler's `for await` loop: `buffer += chunk`, then the
     * message's content is replaced by the whole buffer, which is the concatenation of all
     * chunks received so far.
     */
    method StreamChunk(id: string, chunk: string)
      requires Valid() && id in streams
      modifies this`messages, this`streams, this`received
      ensures Valid()
      ensures streams == old(streams)[id := old(streams[id]) + chunk]
      ensures received == old(received)[id := old(received[id]) + [chunk]]
      ensures messages == SetContent(old(messages), id, old(streams[id]) + chunk)
      ensures ContentOf(messages, id) == Some(Concat(received[id]))
    {
      var buffer := streams[id] + chunk;
      var messages' := SetContent(messages, id, buffer);
      var streams' := streams[id := buffer];
      ghost var received' := received[id := received[id] + [chunk]];
      ChunkKeepsHandlers(messages, ids.issued, streams, received, awaiting, id, chunk, buffer);
      assert IdsIssued(messages', ids.issued) && HandlersValid(messages', streams', received', awaiting);
      messages := messages';
      streams := streams';
      received := received';
    }

    /** A streaming handler's chunk sequence is exhausted and its loop ends. */
    method StreamEnd(id: string)
      requires Valid() && id in streams
      modifies this`streams, this`received
      ensures Valid()
      ensures streams == old(streams) - {id} && received == old(received) - {id}
    {
      streams := streams - {id};
      received := received - {id};
    }

    /** A non-streaming handler's `content()` resolved: the message's content is set, once. */
    method ContentResolved(id: string, text: string)
      requires Valid() && id in awaiting
      modifies this`messages, this`awaiting
      ensures Valid()
      ensures messages == SetContent(old(messages), id, text)
      ensures ContentOf(messages, id) == Some(text)
      ensures awaiting == old(awaiting) - {id}
    {
      ResolveKeepsHandlers(messages, ids.issued, streams, received, awaiting, id, text);
      messages := SetContent(messages, id, text);
      awaiting := awaiting - {id};
    }

    /**
     * A streaming handler's `for await` loop run to the end with nothing interleaved: one full
     * replacement per chunk, ending with the buffer plus every chunk, after which the handler
     * is done.
     */
    method ConsumeStream(id: string, chunks: seq<string>)
      requires Valid() && id in streams
      modifies this`messages, this`streams, this`received
      ensures Valid() && id !in streams
      ensures messages == SetContent(old(messages), id, old(streams[id]) + Concat(chunks))
      ensures ContentOf(messages, id) == Some(old(streams[id]) + Concat(chunks))
      ensures streams == old(streams) - {id}
    {
      var buffer := streams[id];
      ghost var before := messages;
      SetContentSame(messages, id, buffer);
      for i := 0 to |chunks|
        invariant buffer == old(streams[id]) + Concat(chunks[..i])
        invariant messages == SetContent(before, id, buffer)
        modifies this`messages
      {
        BufferGrows(old(streams[id]), chunks, i);
        SetContentOverwrite(before, id, buffer, buffer + chunks[i]);
        buffer := buffer + chunks[i];
        messages := SetContent(messages, id, buffer);
      }
      assert chunks[..|chunks|] == chunks;
      var streams' := streams - {id};
      ghost var received' := received - {id};
      EndKeepsHandlers(before, ids.issued, streams, received, awaiting, id, buffer);
      assert IdsIssued(messages, ids.issued) && HandlersValid(messages, streams', received', awaiting);
      streams := streams';
      received := received';
    }

    /** The input's `onChange`. */
    method SetInput(text: string)
      requires Valid()
      modifies this`input
      ensures Valid()
      ensures input == text
    {
      input := text;
    }

    /**
     * handleSubmit: nothing happens when the trimmed input is empty or there is no current
     * Soul; otherwise one user message with the trimmed input and a fresh id is appended,
     * the input is cleared, and the trimmed text is dispatched to the current Soul.
     */
    method Submit() returns (dispatch: Option<Said>)
      requires Valid()
      modifies this`messages, this`input, ids
      ensures Valid()
      ensures var trimmed := Trim(old(input));
        && (dispatch.None? <==> trimmed == "" || old(soulRef).None?)
        && (dispatch.None? ==>
              messages == old(messages) && input == old(input) && ids.issued == old(ids.issued))
        && (dispatch.Some? ==>
              && dispatch.value == Said("User", trimmed)
              && |messages| == |old(messages)| + 1
              && messages[..|old(messages)|] == old(messages)
              && messages[|old(messages)|] == ChatMessage(messages[|old(messages)|].id, User, trimmed, false)
              && messages[|old(messages)|].id !in old(ids.issued)
              && input == "")
    {
      var trimmed := Trim(input);
      if trimmed == "" || soulRef.None? {
        return None;
      }
      var id := ids.Next();
      var m := ChatMessage(id, User, trimmed, false);
      AppendFresh(messages, old(ids.issued), m, streams, received, awaiting);
      messages := messages + [m];
      input := "";
      dispatch := Some(Said("User", trimmed));
    }

    /** The dispatch of a submitted message rejected: the error is shown, the message stays. */
    method DispatchRejected(thrown: Thrown)
      requires Valid()
      modifies this`error
      ensures Valid()
      ensures error == Some(MessageOf(thrown, SendFailed))
      ensures messages == old(messages)
    {
      error := Some(MessageOf(thrown, SendFailed));
    }
  }
}
