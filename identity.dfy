/**
 * Session identity of the public chat: `resolvedSoulId` (explicit `chatId`, else the value
 * kept in local storage, else a generated id) and the effect that persists a generated id.
 */
module SoulIdentity {
  import opened Wrappers

  /** The browser-storage key under which the session id is kept. */
  const StorageKey: string := "soul-public-chat-id"

  /** Neither an explicit id nor a stored one: only then is a generated id drawn and persisted. */
  predicate NeedsFresh(chatId: Option<string>, stored: string) {
    !Truthy(chatId) && stored == ""
  }

  /** The `resolvedSoulId` memo, with `generated` the id the generator would hand out. */
  function Resolve(chatId: Option<string>, stored: string, generated: string): string {
    if Truthy(chatId) then chatId.value
    else if stored != "" then stored
    else generated
  }

  /** The storage write of the persist effect: `Some(v)` when it stores `v`, `None` when it writes nothing. */
  function PersistWrite(chatId: Option<string>, stored: string, resolved: string): Option<string> {
    if !Truthy(chatId) && stored == "" then Some(resolved) else None
  }

  /** The stored value once the persist effect has run. */
  function StoredAfter(chatId: Option<string>, stored: string, resolved: string): string {
    PersistWrite(chatId, stored, resolved).GetOr(stored)
  }

  /**
   * The priority chain: the explicit id when it is non-empty, else the stored id when it is
   * non-empty, else the fresh one; the generated id is used exactly when neither is present.
   */
  lemma ResolvePriority(chatId: Option<string>, stored: string, generated: string)
    requires generated != "" && (chatId.Some? ==> chatId.value != generated) && stored != generated
    ensures var r := Resolve(chatId, stored, generated);
      && (Truthy(chatId) ==> r == chatId.value)
      && (!Truthy(chatId) && stored != "" ==> r == stored)
      && (r == generated <==> NeedsFresh(chatId, stored))
      && r != ""
  {
  }

  /**
   * The store is written only when neither an explicit nor a stored id exists, and then with
   * the resolved id, which is the fresh one; an explicit id is never written.
   */
  lemma PersistOnlyFresh(chatId: Option<string>, stored: string, generated: string)
    ensures var w := PersistWrite(chatId, stored, Resolve(chatId, stored, generated));
      && (w.Some? <==> NeedsFresh(chatId, stored))
      && (w.Some? ==> w.value == generated)
      && (Truthy(chatId) ==> w == None)
  {
  }

  /**
   * After the persist effect has stored a generated (non-empty) id, resolving again yields the
   * same id and draws no other generated id, so the connection does not change identity.
   */
  lemma ResolveStableAfterPersist(chatId: Option<string>, stored: string, generated: string, later: string)
    requires generated != ""
    ensures var id := Resolve(chatId, stored, generated);
      var stored' := StoredAfter(chatId, stored, id);
      && !NeedsFresh(chatId, stored')
      && Resolve(chatId, stored', later) == id
      && PersistWrite(chatId, stored', Resolve(chatId, stored', later)) == None
  {
  }
}
