/**
 * The two client-side stores of the overlay.
 *
 * The chat store holds the recent-message window: `addMessage` drops a message
 * whose (username, message, uniqueId) key is already present, and otherwise
 * appends it and keeps the last 50. `reset` and `set` replace the contents. The
 * live-info store holds a three-field record with one setter per field and a
 * reset to the initial value.
 *
 * Each store is a class whose field is the store's current value; its methods
 * assign that field from the pure update callbacks below.
 */
module Stores {
  import opened Wrappers

  /** The window keeps at most this many messages (`slice(-50)`). */
  const WindowCapacity: nat := 50

  datatype Platform = YouTube | Twitch

  /** `number | string`; strict equality never equates a number with a string. */
  datatype UniqueId = NumberId(n: int) | StringId(s: string)

  /** A chat message as the overlay shows it; `platform`, `emotes` and `usernameColor` are carried, never inspected. */
  datatype ChatMessage = ChatMessage(
    username: string,
    message: string,
    platform: Platform,
    uniqueId: UniqueId,
    emotes: Option<map<string, string>>,
    usernameColor: Option<string>)

  /** The duplicate test of `addMessage`: the same username, text and unique id. */
  predicate SameKey(a: ChatMessage, b: ChatMessage) {
    a.username == b.username && a.message == b.message && a.uniqueId == b.uniqueId
  }

  /** No two messages of the window share a key. */
  predicate UniqueKeys(messages: seq<ChatMessage>) {
    forall i, j :: 0 <= i < j < |messages| ==> !SameKey(messages[i], messages[j])
  }

  /** `messages.some(m => SameKey(m, msg))`. */
  function IsDuplicate(messages: seq<ChatMessage>, msg: ChatMessage): (dup: bool)
    ensures dup <==> exists i :: 0 <= i < |messages| && SameKey(messages[i], msg)
  {
    if messages == [] then false
    else SameKey(messages[0], msg) || IsDuplicate(messages[1..], msg)
  }

  /**
   * `s.slice(-n)`: the last `n` elements, or all of them when there are fewer.
   * `-0` is `0`, so `slice(-0)` keeps everything.
   */
  function KeepLast<T>(s: seq<T>, n: nat): (r: seq<T>)
    ensures |r| == if n == 0 || |s| <= n then |s| else n
    ensures s == s[..|s| - |r|] + r
  {
    if n == 0 || |s| <= n then s else s[|s| - n..]
  }

  /** The update callback of `addMessage`. */
  function AddMessageUpdate(messages: seq<ChatMessage>, msg: ChatMessage): (updated: seq<ChatMessage>)
    ensures IsDuplicate(messages, msg) ==> updated == messages
    ensures !IsDuplicate(messages, msg) ==>
      && |updated| == (if |messages| < WindowCapacity then |messages| + 1 else WindowCapacity)
      && updated[|updated| - 1] == msg
  {
    if IsDuplicate(messages, msg) then messages
    else KeepLast(messages + [msg], WindowCapacity)
  }

  /** The window after a sequence of `addMessage` calls, in call order. */
  function AddAll(messages: seq<ChatMessage>, incoming: seq<ChatMessage>): (window: seq<ChatMessage>)
    decreases |incoming|
  {
    if incoming == [] then messages
    else AddAll(AddMessageUpdate(messages, incoming[0]), incoming[1..])
  }

  class ChatStore {
    var messages: seq<ChatMessage>

    /** `writable<ChatMessage[]>([])`. */
    constructor ()
      ensures messages == []
    {
      messages := [];
    }

    method AddMessage(msg: ChatMessage)
      modifies this
      ensures messages == AddMessageUpdate(old(messages), msg)
    {
      messages := AddMessageUpdate(messages, msg);
    }

    method Reset()
      modifies this
      ensures messages == []
    {
      messages := [];
    }

    /** Replaces the contents as given: no duplicate test and no bound. */
    method Set(value: seq<ChatMessage>)
      modifies this
      ensures messages == value
    {
      messages := value;
    }
  }

  // ---------------------------------------------------------------------------
  // Properties of addMessage
  // ---------------------------------------------------------------------------

  lemma KeepLastKeepsUniqueKeys(s: seq<ChatMessage>, n: nat)
    requires UniqueKeys(s)
    ensures UniqueKeys(KeepLast(s, n))
  {
    var r := KeepLast(s, n);
    var d := |s| - |r|;
    forall i, j | 0 <= i < j < |r| ensures !SameKey(r[i], r[j]) {
      assert r[i] == s[d + i] && r[j] == s[d + j];
    }
  }

  /** A window without shared keys keeps that property through `addMessage`. */
  lemma AddMessageKeepsUniqueKeys(messages: seq<ChatMessage>, msg: ChatMessage)
    requires UniqueKeys(messages)
    ensures UniqueKeys(AddMessageUpdate(messages, msg))
  {
    if !IsDuplicate(messages, msg) {
      var s := messages + [msg];
      forall i, j | 0 <= i < j < |s| ensures !SameKey(s[i], s[j]) {
        if j == |messages| {
          assert s[i] == messages[i];
        }
      }
      KeepLastKeepsUniqueKeys(s, WindowCapacity);
    }
  }

  /**
   * An appended message leaves at most 50 in the window; a duplicate leaves
   * the window as it was, so it is bounded when it was bounded before.
   */
  lemma AddMessageBounded(messages: seq<ChatMessage>, msg: ChatMessage)
    ensures !IsDuplicate(messages, msg) ==> |AddMessageUpdate(messages, msg)| <= WindowCapacity
    ensures |messages| <= WindowCapacity ==> |AddMessageUpdate(messages, msg)| <= WindowCapacity
  {
  }

  /** A message whose key is already present leaves the window unchanged. */
  lemma AddDuplicateIsNoOp(messages: seq<ChatMessage>, msg: ChatMessage, i: nat)
    requires i < |messages| && SameKey(messages[i], msg)
    ensures AddMessageUpdate(messages, msg) == messages
  {
  }

  /**
   * A message with a new key ends up last; the window is the old one followed
   * by it, with just enough of the oldest head entries dropped to keep 50.
   */
  lemma AddNewAppends(messages: seq<ChatMessage>, msg: ChatMessage)
    requires forall i :: 0 <= i < |messages| ==> !SameKey(messages[i], msg)
    ensures var r := AddMessageUpdate(messages, msg);
      && |r| == (if |messages| < WindowCapacity then |messages| + 1 else WindowCapacity)
      && r[|r| - 1] == msg
      && messages + [msg] == (messages + [msg])[..|messages| + 1 - |r|] + r
  {
    assert !IsDuplicate(messages, msg);
  }

  /**
   * The duplicate test uses the whole key: a message that shares its unique id
   * (or any other single field) with every entry, but differs from each in
   * username or text, is still appended.
   */
  lemma AddUsesFullKey(messages: seq<ChatMessage>, msg: ChatMessage)
    requires forall i :: 0 <= i < |messages| ==>
      messages[i].username != msg.username || messages[i].message != msg.message
    ensures var r := AddMessageUpdate(messages, msg);
      r != [] && r[|r| - 1] == msg
  {
  }

  /** Starting from a well-formed window, any sequence of `addMessage` calls keeps it duplicate-free and within 50. */
  lemma {:induction false} AddAllKeepsWindowWellFormed(messages: seq<ChatMessage>, incoming: seq<ChatMessage>)
    requires UniqueKeys(messages) && |messages| <= WindowCapacity
    ensures UniqueKeys(AddAll(messages, incoming))
    ensures |AddAll(messages, incoming)| <= WindowCapacity
    decreases |incoming|
  {
    if incoming != [] {
      AddMessageKeepsUniqueKeys(messages, incoming[0]);
      AddMessageBounded(messages, incoming[0]);
      AddAllKeepsWindowWellFormed(AddMessageUpdate(messages, incoming[0]), incoming[1..]);
    }
  }

  /**
   * `ChatStore.Set` ensures `messages == value` for any `value`, so it can install
   * this window with a shared key, which `addMessage` never produces from a
   * well-formed window.
   */
  lemma SetMayBreakUniqueKeys(msg: ChatMessage)
    ensures !UniqueKeys([msg, msg])
  {
    assert SameKey([msg, msg][0], [msg, msg][1]);
  }

  // ---------------------------------------------------------------------------
  // The live-info record
  // ---------------------------------------------------------------------------

  datatype LiveInfo = LiveInfo(liveId: Option<string>, isFetching: bool, isChannelLive: bool)

  /** `{ liveId: null, isFetching: false, isChannelLive: false }`. */
  const InitialValue: LiveInfo := LiveInfo(None, false, false)

  function WithLiveId(info: LiveInfo, liveId: string): (r: LiveInfo)
    ensures r.liveId == Some(liveId)
    ensures r.isFetching == info.isFetching && r.isChannelLive == info.isChannelLive
  {
    info.(liveId := Some(liveId))
  }

  function WithChannelStatus(info: LiveInfo, status: bool): (r: LiveInfo)
    ensures r.isChannelLive == status
    ensures r.liveId == info.liveId && r.isFetching == info.isFetching
  {
    info.(isChannelLive := status)
  }

  function WithFetching(info: LiveInfo, isFetching: bool): (r: LiveInfo)
    ensures r.isFetching == isFetching
    ensures r.liveId == info.liveId && r.isChannelLive == info.isChannelLive
  {
    info.(isFetching := isFetching)
  }

  class LiveInfoStore {
    var info: LiveInfo

    /** `writable<YoutubeLiveInfo>(initialValue)`. */
    constructor ()
      ensures info == InitialValue
    {
      info := InitialValue;
    }

    method AddLiveId(liveId: string)
      modifies this
      ensures info == WithLiveId(old(info), liveId)
    {
      info := WithLiveId(info, liveId);
    }

    method SetStatusChannel(status: bool)
      modifies this
      ensures info == WithChannelStatus(old(info), status)
    {
      info := WithChannelStatus(info, status);
    }

    method SetIsFetchingData(isFetching: bool)
      modifies this
      ensures info == WithFetching(old(info), isFetching)
    {
      info := WithFetching(info, isFetching);
    }

    method Reset()
      modifies this
      ensures info == LiveInfo(None, false, false)
    {
      info := InitialValue;
    }
  }
}
