/**
 * The live-chat polling endpoint (`GET /api/live-chat`).
 *
 * The endpoint keeps two pieces of module-level state across calls: the ids of
 * recently returned messages (`lastMessageIds`, an insertion-ordered `Set`) and
 * the upstream pagination cursor (`nextPageToken`). One call resolves the video
 * id to a live-chat id, requests a page of chat messages, returns the ones not
 * seen before, records their ids, evicts the oldest ids beyond 50 and replaces
 * the cursor.
 *
 * The two upstream fetches are inputs here: each is either the parsed JSON body
 * or a rejection (network failure, unparseable body). The seen set is a
 * `seq<string>` without duplicates, so its insertion order is explicit.
 */
module LiveChatServer {
  import opened Wrappers

  /** At most this many ids are kept in the seen set. */
  const SeenCapacity: nat := 50

  /** The page size asked of the upstream API, as the query string carries it. */
  const MaxResults: string := "50"

  /** One `name=value` pair of an outgoing query string. */
  datatype Param = Param(name: string, value: string)

  // ---------------------------------------------------------------------------
  // Upstream responses (only the fields the endpoint reads or carries)
  // ---------------------------------------------------------------------------

  datatype LiveStreamingDetails = LiveStreamingDetails(activeLiveChatId: Option<string>)
  datatype VideoItem = VideoItem(liveStreamingDetails: Option<LiveStreamingDetails>)
  datatype VideoResponse = VideoResponse(items: Option<seq<VideoItem>>)

  datatype AuthorDetails = AuthorDetails(displayName: string, profileImageUrl: string)
  datatype Snippet = Snippet(displayMessage: string, publishedAt: string)
  datatype ChatItem = ChatItem(id: string, etag: string, authorDetails: AuthorDetails, snippet: Snippet)
  datatype ChatResponse = ChatResponse(items: Option<seq<ChatItem>>, nextPageToken: Option<string>)

  /** The settled outcome of `await fetch(...)` followed by `await response.json()`. */
  datatype Fetched<T> = Received(body: T) | Rejected

  /** What one call of the endpoint answers. */
  datatype Reply =
    | MissingVideoId                     // status 400, "Missing videoId"
    | NoLiveChat                         // status 404, "No live chat found for this video"
    | Thrown                             // an exception escapes the handler
    | Listed(messages: seq<ChatItem>)    // `json(newMessages)` with a message list
    | Unlisted                           // `json(undefined)`: the page carried no `items`

  /** The module-level state of the endpoint. */
  datatype PollerState = PollerState(seen: seq<string>, cursor: Option<string>)

  /** Everything one call produces: the reply, the chat request it issued (if it got that far) and the new state. */
  datatype Handled = Handled(reply: Reply, request: Option<seq<Param>>, state: PollerState)

  // ---------------------------------------------------------------------------
  // Vocabulary
  // ---------------------------------------------------------------------------

  /** JavaScript truthiness of a `string | null | undefined`. */
  predicate Truthy(s: Option<string>) {
    s.Some? && s.value != ""
  }

  predicate NoDuplicates<T(==)>(s: seq<T>) {
    forall i, j :: 0 <= i < j < |s| ==> s[i] != s[j]
  }

  /** The ids of a page of chat items, in page order. */
  function Ids(items: seq<ChatItem>): (ids: seq<string>)
    ensures |ids| == |items|
    ensures forall k :: 0 <= k < |items| ==> ids[k] == items[k].id
  {
    if items == [] then [] else [items[0].id] + Ids(items[1..])
  }

  /** `a` is obtained from `b` by deleting elements, keeping the order of the rest. */
  predicate IsSubsequence<T(==)>(a: seq<T>, b: seq<T>)
    decreases |b|
  {
    if b == [] then a == []
    else (a != [] && a[0] == b[0] && IsSubsequence(a[1..], b[1..])) || IsSubsequence(a, b[1..])
  }

  /** The values of every parameter called `name`, in query-string order. */
  function ParamValues(ps: seq<Param>, name: string): (values: seq<string>)
  {
    if ps == [] then [] else ValueIfNamed(ps[0], name) + ParamValues(ps[1..], name)
  }

  /** The value of `p`, when it is called `name`. */
  function ValueIfNamed(p: Param, name: string): (values: seq<string>) {
    if p.name == name then [p.value] else []
  }

  lemma ParamValuesOfFour(fixed: seq<Param>, tail: seq<Param>, name: string)
    requires |fixed| == 4
    ensures ParamValues(fixed + tail, name) ==
      ValueIfNamed(fixed[0], name) + ValueIfNamed(fixed[1], name) + ValueIfNamed(fixed[2], name)
      + ValueIfNamed(fixed[3], name) + ParamValues(tail, name)
  {
    var t3 := [fixed[3]] + tail;
    var t2 := [fixed[2]] + t3;
    var t1 := [fixed[1]] + t2;
    var t0 := [fixed[0]] + t1;
    assert t0 == fixed + tail;
    ParamValuesCons(fixed[3], tail, name);
    ParamValuesCons(fixed[2], t3, name);
    ParamValuesCons(fixed[1], t2, name);
    ParamValuesCons(fixed[0], t1, name);
  }

  lemma ParamValuesCons(p: Param, rest: seq<Param>, name: string)
    ensures ParamValues([p] + rest, name) == ValueIfNamed(p, name) + ParamValues(rest, name)
  {
    assert ([p] + rest)[1..] == rest;
  }

  // ---------------------------------------------------------------------------
  // The steps of one call
  // ---------------------------------------------------------------------------

  /**
   * `videoData.items?.[0]?.liveStreamingDetails?.activeLiveChatId`, kept only
   * when truthy: the id comes from the first item alone, and any missing link
   * (or an empty string) gives nothing.
   */
  function LiveChatIdOf(video: VideoResponse): (id: Option<string>)
    ensures id.Some? <==>
      && video.items.Some? && |video.items.value| > 0
      && video.items.value[0].liveStreamingDetails.Some?
      && Truthy(video.items.value[0].liveStreamingDetails.value.activeLiveChatId)
    ensures id.Some? ==> id == video.items.value[0].liveStreamingDetails.value.activeLiveChatId
  {
    match video.items
    case None => None
    case Some(items) =>
      if items == [] then None
      else match items[0].liveStreamingDetails
        case None => None
        case Some(details) => if Truthy(details.activeLiveChatId) then details.activeLiveChatId else None
  }

  /**
   * The query of the chat-messages request: the chat id, the parts asked for,
   * the key, the page size, and the stored cursor only when it is truthy.
   */
  function ChatParams(liveChatId: string, apiKey: string, cursor: Option<string>): (ps: seq<Param>)
    ensures ParamValues(ps, "liveChatId") == [liveChatId]
    ensures ParamValues(ps, "key") == [apiKey]
    ensures ParamValues(ps, "maxResults") == [MaxResults]
    ensures ParamValues(ps, "pageToken") == if Truthy(cursor) then [cursor.value] else []
  {
    var tail := if Truthy(cursor) then [Param("pageToken", cursor.value)] else [];
    var fixed := [Param("liveChatId", liveChatId), Param("part", "id,snippet,authorDetails"),
                  Param("key", apiKey), Param("maxResults", MaxResults)];
    ParamValuesOfFour(fixed, tail, "liveChatId");
    ParamValuesOfFour(fixed, tail, "key");
    ParamValuesOfFour(fixed, tail, "maxResults");
    ParamValuesOfFour(fixed, tail, "pageToken");
    fixed + tail
  }

  /** The items of a page whose id is not in `seen` (the filter callback), in page order. */
  function NotSeen(seen: seq<string>, items: seq<ChatItem>): (picked: seq<ChatItem>)
    ensures |picked| <= |items|
    ensures forall m :: m in picked <==> m in items && m.id !in seen
    ensures forall m :: multiset(picked)[m] == if m.id in seen then 0 else multiset(items)[m]
  {
    if items == [] then []
    else
      assert items == [items[0]] + items[1..];
      (if items[0].id in seen then [] else [items[0]]) + NotSeen(seen, items[1..])
  }

  lemma {:induction false} NotSeenIsSubsequence(seen: seq<string>, items: seq<ChatItem>)
    ensures IsSubsequence(NotSeen(seen, items), items)
  {
    if items != [] {
      NotSeenIsSubsequence(seen, items[1..]);
      if items[0].id in seen {
        assert NotSeen(seen, items) == NotSeen(seen, items[1..]);
      } else {
        var picked := NotSeen(seen, items);
        assert picked[0] == items[0] && picked[1..] == NotSeen(seen, items[1..]);
      }
    }
  }

  /**
   * The messages the call returns, with the guard on the seen set read as
   * intended (a test of its size): an empty seen set passes the whole page,
   * otherwise the page is filtered.
   */
  function SelectNew(seen: seq<string>, items: seq<ChatItem>): (picked: seq<ChatItem>)
    ensures |seen| == 0 ==> picked == items
    ensures |seen| > 0 ==> forall m :: m in picked <==> m in items && m.id !in seen
    ensures |seen| > 0 ==> forall m :: multiset(picked)[m] == if m.id in seen then 0 else multiset(items)[m]
  {
    if |seen| == 0 then items else NotSeen(seen, items)
  }

  /** `Set.prototype.values.length`: the declared parameter count of the `values` method. */
  const SetValuesArity: nat := 0

  /**
   * The selection as the source writes it: the guard tests
   * `lastMessageIds.values.length == 0`, which reads the method's arity, not
   * the set's size, so the filter branch is never taken.
   */
  function SelectNewAsWritten(seen: seq<string>, items: seq<ChatItem>): (picked: seq<ChatItem>)
    ensures picked == items
  {
    if SetValuesArity == 0 then items else NotSeen(seen, items)
  }

  /** `Set.prototype.add`: an id already present is neither duplicated nor moved. */
  function Add(seen: seq<string>, id: string): (after: seq<string>)
    ensures forall x :: x in after <==> x in seen || x == id
    ensures |seen| <= |after| <= |seen| + 1 && after[..|seen|] == seen
    ensures NoDuplicates(seen) ==> NoDuplicates(after)
  {
    if id in seen then seen else seen + [id]
  }

  /** The seen set after `newMessages.forEach(m => lastMessageIds.add(m.id))`. */
  function Record(seen: seq<string>, items: seq<ChatItem>): (after: seq<string>)
    ensures |seen| <= |after| <= |seen| + |items|
    ensures after[..|seen|] == seen
  {
    if items == [] then seen
    else Add(Record(seen, items[..|items| - 1]), items[|items| - 1].id)
  }

  /** The seen set after the eviction loop: the oldest ids beyond the capacity are gone. */
  function Trim(seen: seq<string>): (kept: seq<string>)
    ensures |kept| <= SeenCapacity
    ensures |seen| <= SeenCapacity ==> kept == seen
    ensures |seen| > SeenCapacity ==> |kept| == SeenCapacity && seen == seen[..|seen| - SeenCapacity] + kept
  {
    if |seen| > SeenCapacity then seen[|seen| - SeenCapacity..] else seen
  }

  /** `chatData.nextPageToken || null`. */
  function NextCursor(token: Option<string>): (cursor: Option<string>)
    ensures cursor.Some? <==> Truthy(token)
    ensures cursor.Some? ==> cursor == token
  {
    if Truthy(token) then token else None
  }

  /**
   * One call of the endpoint as a state transition. The chat request is issued
   * exactly when the video id is truthy and the lookup yields a live-chat id;
   * only an answered page (a list, or no list at all) changes the state.
   */
  function Poll(s: PollerState, videoId: Option<string>, apiKey: string,
                video: Fetched<VideoResponse>, chat: Fetched<ChatResponse>): (h: Handled)
    ensures h.request.Some? <==> Truthy(videoId) && video.Received? && LiveChatIdOf(video.body).Some?
    ensures (h.reply.Listed? || h.reply.Unlisted?) <==> h.request.Some? && chat.Received? && (chat.body.items.Some? || |s.seen| == 0)
    ensures !(h.reply.Listed? || h.reply.Unlisted?) ==> h.state == s
  {
    if !Truthy(videoId) then Handled(MissingVideoId, None, s)
    else if video.Rejected? then Handled(Thrown, None, s)
    else
      var liveChatId := LiveChatIdOf(video.body);
      if liveChatId.None? then Handled(NoLiveChat, None, s)
      else
        var request := Some(ChatParams(liveChatId.value, apiKey, s.cursor));
        if chat.Rejected? then Handled(Thrown, request, s)
        else
          var cursor := NextCursor(chat.body.nextPageToken);
          match chat.body.items
          case None =>
            // An empty seen set passes `undefined` on: nothing is recorded and
            // the cursor is still replaced. Otherwise `undefined.filter` throws.
            if |s.seen| == 0 then Handled(Unlisted, request, PollerState(s.seen, cursor))
            else Handled(Thrown, request, s)
          case Some(items) =>
            var picked := SelectNew(s.seen, items);
            Handled(Listed(picked), request, PollerState(Trim(Record(s.seen, picked)), cursor))
  }

  // ---------------------------------------------------------------------------
  // The endpoint's module state and handler
  // ---------------------------------------------------------------------------

  class LiveChatRoute {
    var lastMessageIds: seq<string>
    var nextPageToken: Option<string>

    ghost predicate Valid()
      reads this
    {
      && NoDuplicates(lastMessageIds)
      && |lastMessageIds| <= SeenCapacity
      && (nextPageToken.Some? ==> Truthy(nextPageToken))
    }

    function State(): (s: PollerState)
      reads this
      ensures s.seen == lastMessageIds && s.cursor == nextPageToken
    {
      PollerState(lastMessageIds, nextPageToken)
    }

    /** The module is loaded with an empty set and a null cursor. */
    constructor ()
      ensures Valid()
      ensures lastMessageIds == [] && nextPageToken == None
    {
      lastMessageIds := [];
      nextPageToken := None;
    }

    /** Adds the id of every returned message to the seen set, in order. */
    method RecordIds(newMessages: seq<ChatItem>)
      modifies this`lastMessageIds
      ensures lastMessageIds == Record(old(lastMessageIds), newMessages)
    {
      for j := 0 to |newMessages|
        invariant lastMessageIds == Record(old(lastMessageIds), newMessages[..j])
      {
        assert newMessages[..j + 1][..j] == newMessages[..j];
        var id := newMessages[j].id;
        if id !in lastMessageIds {
          lastMessageIds := lastMessageIds + [id];
        }
      }
      assert newMessages[..|newMessages|] == newMessages;
    }

    /**
     * Deletes the `size - 50` oldest ids. The source walks a live iterator and
     * deletes each id it yields; since the yielded id is always the oldest one
     * still present, each step removes the head of the sequence.
     */
    method TrimOldest()
      modifies this`lastMessageIds
      ensures lastMessageIds == Trim(old(lastMessageIds))
    {
      if |lastMessageIds| > SeenCapacity {
        var excess := |lastMessageIds| - SeenCapacity;
        for i := 0 to excess
          invariant lastMessageIds == old(lastMessageIds)[i..]
        {
          lastMessageIds := lastMessageIds[1..];
        }
      }
    }

    /**
     * The request handler. `videoId` is the query parameter (`None` when
     * absent), `apiKey` the configured key, `video` and `chat` what the two
     * fetches settle to. `request` is the chat-messages query the handler
     * issues, `None` when it stops before issuing one.
     */
    method Get(videoId: Option<string>, apiKey: string, video: Fetched<VideoResponse>, chat: Fetched<ChatResponse>)
      returns (reply: Reply, request: Option<seq<Param>>)
      requires Valid()
      modifies this
      ensures Valid()
      ensures Handled(reply, request, State()) == Poll(old(State()), videoId, apiKey, video, chat)
    {
      request := None;
      if !Truthy(videoId) {
        return MissingVideoId, request;
      }
      if video.Rejected? {
        return Thrown, request;
      }
      var liveChatId := LiveChatIdOf(video.body);
      if liveChatId.None? {
        return NoLiveChat, request;
      }
      request := Some(ChatParams(liveChatId.value, apiKey, nextPageToken));
      if chat.Rejected? {
        return Thrown, request;
      }
      var items := chat.body.items;
      // As written, the guard on the seen set always takes the first branch
      // (see SelectNewAsWritten); the model follows the intended test on its size.
      var newMessages: Option<seq<ChatItem>>;
      if |lastMessageIds| == 0 {
        newMessages := items;
      } else if items.None? {
        return Thrown, request;
      } else {
        newMessages := Some(NotSeen(lastMessageIds, items.value));
      }
      ghost var before := lastMessageIds;
      if newMessages.Some? {
        RecordIds(newMessages.value);
        RecordKeepsNoDuplicates(before, newMessages.value);
      }
      TrimOldest();
      nextPageToken := NextCursor(chat.body.nextPageToken);
      reply := if newMessages.Some? then Listed(newMessages.value) else Unlisted;
    }
  }

  // ---------------------------------------------------------------------------
  // Properties of the seen-set steps
  // ---------------------------------------------------------------------------

  /** After recording, an id is present exactly when it was present before or belongs to a recorded item. */
  lemma {:induction false} RecordMembers(seen: seq<string>, items: seq<ChatItem>)
    ensures forall x :: x in Record(seen, items) <==> x in seen || x in Ids(items)
  {
    if items != [] {
      var init := items[..|items| - 1];
      var last := items[|items| - 1];
      RecordMembers(seen, init);
      IdsOfSnoc(init, last);
      assert items == init + [last];
    }
  }

  lemma IdsOfSnoc(init: seq<ChatItem>, last: ChatItem)
    ensures Ids(init + [last]) == Ids(init) + [last.id]
  {
  }

  /** The ids recording adds after the prior entries are new and pairwise distinct. */
  lemma {:induction false} RecordAppendsNewIds(seen: seq<string>, items: seq<ChatItem>)
    ensures NoDuplicates(Record(seen, items)[|seen|..])
    ensures forall x :: x in Record(seen, items)[|seen|..] ==> x !in seen
  {
    if items != [] {
      var init := items[..|items| - 1];
      var last := items[|items| - 1];
      RecordAppendsNewIds(seen, init);
      var r := Record(seen, init);
      assert r == seen + r[|seen|..];
      if last.id !in r {
        assert Record(seen, items) == r + [last.id];
        assert Record(seen, items)[|seen|..] == r[|seen|..] + [last.id];
      }
    }
  }

  /** The appended ids follow the order of the messages they come from. */
  lemma {:induction false} RecordAppendsInPageOrder(seen: seq<string>, items: seq<ChatItem>)
    ensures IsSubsequence(Record(seen, items)[|seen|..], Ids(items))
  {
    if items != [] {
      var init := items[..|items| - 1];
      var last := items[|items| - 1];
      RecordAppendsInPageOrder(seen, init);
      IdsOfSnoc(init, last);
      assert items == init + [last];
      var r := Record(seen, init);
      if last.id in r {
        SubsequenceOfLonger(r[|seen|..], Ids(init), last.id);
      } else {
        assert Record(seen, items)[|seen|..] == r[|seen|..] + [last.id];
        SubsequenceSnoc(r[|seen|..], Ids(init), last.id);
      }
    }
  }

  lemma {:induction false} SubsequenceOfLonger<T>(a: seq<T>, b: seq<T>, x: T)
    requires IsSubsequence(a, b)
    ensures IsSubsequence(a, b + [x])
    decreases |b|
  {
    if b == [] {
      assert IsSubsequence(a, (b + [x])[1..]);
    } else {
      assert (b + [x])[1..] == b[1..] + [x];
      if a != [] && a[0] == b[0] && IsSubsequence(a[1..], b[1..]) {
        SubsequenceOfLonger(a[1..], b[1..], x);
      } else {
        SubsequenceOfLonger(a, b[1..], x);
      }
    }
  }

  lemma {:induction false} SubsequenceSnoc<T>(a: seq<T>, b: seq<T>, x: T)
    requires IsSubsequence(a, b)
    ensures IsSubsequence(a + [x], b + [x])
    decreases |b|
  {
    if b == [] {
      assert a + [x] == [x] && b + [x] == [x];
      assert IsSubsequence([x][1..], [x][1..]);
    } else {
      assert (b + [x])[1..] == b[1..] + [x];
      if a != [] && a[0] == b[0] && IsSubsequence(a[1..], b[1..]) {
        assert (a + [x])[1..] == a[1..] + [x];
        SubsequenceSnoc(a[1..], b[1..], x);
      } else {
        SubsequenceSnoc(a, b[1..], x);
      }
    }
  }

  lemma RecordKeepsNoDuplicates(seen: seq<string>, items: seq<ChatItem>)
    requires NoDuplicates(seen)
    ensures NoDuplicates(Record(seen, items))
  {
    RecordAppendsNewIds(seen, items);
    var r := Record(seen, items);
    assert r == seen + r[|seen|..];
  }

  lemma TrimKeepsNoDuplicates(seen: seq<string>)
    requires NoDuplicates(seen)
    ensures NoDuplicates(Trim(seen))
  {
  }

  /** Re-adding ids that are all present already leaves the set exactly as it was. */
  lemma {:induction false} RecordPresentIds(seen: seq<string>, items: seq<ChatItem>)
    requires forall m :: m in items ==> m.id in seen
    ensures Record(seen, items) == seen
  {
    if items != [] {
      RecordPresentIds(seen, items[..|items| - 1]);
    }
  }

  // ---------------------------------------------------------------------------
  // Properties of one call
  // ---------------------------------------------------------------------------

  /** A missing or empty `videoId` is answered 400 and changes nothing. */
  lemma PollMissingVideoId(s: PollerState, videoId: Option<string>, apiKey: string,
                           video: Fetched<VideoResponse>, chat: Fetched<ChatResponse>)
    requires videoId.None? || videoId == Some("")
    ensures Poll(s, videoId, apiKey, video, chat) == Handled(MissingVideoId, None, s)
  {
  }

  /** Without an active live-chat id on the first lookup item the call is answered 404, issues no chat request and changes nothing. */
  lemma PollNoLiveChat(s: PollerState, videoId: Option<string>, apiKey: string,
                       lookup: VideoResponse, chat: Fetched<ChatResponse>)
    requires Truthy(videoId)
    requires || lookup.items.None? || lookup.items == Some([])
             || lookup.items.value[0].liveStreamingDetails.None?
             || !Truthy(lookup.items.value[0].liveStreamingDetails.value.activeLiveChatId)
    ensures Poll(s, videoId, apiKey, Received(lookup), chat) == Handled(NoLiveChat, None, s)
  {
  }

  /** No call that fails leaves a trace: the seen set and the cursor are as before. */
  lemma PollErrorsChangeNothing(s: PollerState, videoId: Option<string>, apiKey: string,
                                video: Fetched<VideoResponse>, chat: Fetched<ChatResponse>)
    ensures var h := Poll(s, videoId, apiKey, video, chat);
      (h.reply.MissingVideoId? || h.reply.NoLiveChat? || h.reply.Thrown?) ==> h.state == s
    ensures var h := Poll(s, videoId, apiKey, video, chat);
      chat.Rejected? ==> h.state == s
  {
  }

  /** The chat request asks for 50 results, and carries a page token exactly when the stored cursor is truthy, with the cursor's value. */
  lemma PollRequestParams(s: PollerState, videoId: Option<string>, apiKey: string,
                          video: Fetched<VideoResponse>, chat: Fetched<ChatResponse>)
    ensures var h := Poll(s, videoId, apiKey, video, chat);
      h.request.Some? ==>
        && ParamValues(h.request.value, "maxResults") == ["50"]
        && ParamValues(h.request.value, "liveChatId") == [LiveChatIdOf(video.body).value]
        && ParamValues(h.request.value, "pageToken") == (if Truthy(s.cursor) then [s.cursor.value] else [])
  {
  }

  /** After an answered page the cursor is the page's token when truthy and null otherwise; the old cursor never survives. */
  lemma PollReplacesCursor(s: PollerState, videoId: Option<string>, apiKey: string,
                           video: Fetched<VideoResponse>, page: ChatResponse)
    ensures var h := Poll(s, videoId, apiKey, video, Received(page));
      (h.reply.Listed? || h.reply.Unlisted?) ==>
        && (Truthy(page.nextPageToken) ==> h.state.cursor == page.nextPageToken)
        && (!Truthy(page.nextPageToken) ==> h.state.cursor == None)
  {
  }

  /**
   * The returned messages keep the page's order. With an empty seen set they
   * are the whole page; otherwise they are exactly the items whose id was not
   * seen.
   */
  lemma PollSelectsUnseen(s: PollerState, videoId: Option<string>, apiKey: string,
                          video: Fetched<VideoResponse>, page: ChatResponse)
    ensures var h := Poll(s, videoId, apiKey, video, Received(page));
      h.reply.Listed? ==>
        && page.items.Some?
        && IsSubsequence(h.reply.messages, page.items.value)
        && (|s.seen| == 0 ==> h.reply.messages == page.items.value)
        && (|s.seen| > 0 ==> forall m :: m in h.reply.messages <==> m in page.items.value && m.id !in s.seen)
        && (|s.seen| > 0 ==> forall m ::
              multiset(h.reply.messages)[m] == if m.id in s.seen then 0 else multiset(page.items.value)[m])
  {
    var h := Poll(s, videoId, apiKey, video, Received(page));
    if h.reply.Listed? {
      if |s.seen| == 0 {
        IsSubsequenceReflexive(page.items.value);
      } else {
        NotSeenIsSubsequence(s.seen, page.items.value);
      }
    }
  }

  lemma {:induction false} IsSubsequenceReflexive<T>(a: seq<T>)
    ensures IsSubsequence(a, a)
  {
    if a != [] {
      IsSubsequenceReflexive(a[1..]);
    }
  }

  /** The seen set stays duplicate-free and never holds more than 50 ids. */
  lemma PollKeepsSeenBounded(s: PollerState, videoId: Option<string>, apiKey: string,
                             video: Fetched<VideoResponse>, chat: Fetched<ChatResponse>)
    requires NoDuplicates(s.seen) && |s.seen| <= SeenCapacity
    ensures var h := Poll(s, videoId, apiKey, video, chat);
      NoDuplicates(h.state.seen) && |h.state.seen| <= SeenCapacity
  {
    var h := Poll(s, videoId, apiKey, video, chat);
    if h.reply.Listed? {
      RecordKeepsNoDuplicates(s.seen, h.reply.messages);
      TrimKeepsNoDuplicates(Record(s.seen, h.reply.messages));
    }
  }

  /**
   * The seen-set update of an answered page: the prior ids, then the returned
   * ids not already present (each once, in order); if that exceeds 50 ids,
   * exactly the oldest surplus is dropped and the survivors keep their order.
   */
  lemma PollRecordsThenEvictsOldest(s: PollerState, videoId: Option<string>, apiKey: string,
                                    video: Fetched<VideoResponse>, chat: Fetched<ChatResponse>)
    ensures var h := Poll(s, videoId, apiKey, video, chat);
      h.reply.Listed? ==> SeenUpdate(s.seen, h.reply.messages, h.state.seen)
  {
    var h := Poll(s, videoId, apiKey, video, chat);
    if h.reply.Listed? {
      RecordThenTrim(s.seen, h.reply.messages);
    }
  }

  /** `after` is what recording `messages` into `seen` and evicting the oldest surplus leaves, described without `Record`'s recursion. */
  ghost predicate SeenUpdate(seen: seq<string>, messages: seq<ChatItem>, after: seq<string>) {
    var added := Record(seen, messages)[|seen|..];
    var all := seen + added;
    && NoDuplicates(added)
    && IsSubsequence(added, Ids(messages))
    && (forall x :: x in added <==> x !in seen && x in Ids(messages))
    && (|all| <= SeenCapacity ==> after == all)
    && (|all| > SeenCapacity ==> all == all[..|all| - SeenCapacity] + after && |after| == SeenCapacity)
  }

  lemma RecordThenTrim(seen: seq<string>, messages: seq<ChatItem>)
    ensures SeenUpdate(seen, messages, Trim(Record(seen, messages)))
  {
    RecordMembers(seen, messages);
    RecordAppendsNewIds(seen, messages);
    RecordAppendsInPageOrder(seen, messages);
    var r := Record(seen, messages);
    assert r == seen + r[|seen|..];
  }

  /** When no eviction happens, every returned message's id is in the seen set afterwards, after the prior ids. */
  lemma PollWithoutEvictionRemembersAll(s: PollerState, videoId: Option<string>, apiKey: string,
                                        video: Fetched<VideoResponse>, chat: Fetched<ChatResponse>)
    ensures var h := Poll(s, videoId, apiKey, video, chat);
      (h.reply.Listed? && |Record(s.seen, h.reply.messages)| <= SeenCapacity) ==>
        && h.state.seen[..|s.seen|] == s.seen
        && forall m :: m in h.reply.messages ==> m.id in h.state.seen
  {
    var h := Poll(s, videoId, apiKey, video, chat);
    if h.reply.Listed? && |Record(s.seen, h.reply.messages)| <= SeenCapacity {
      RecordMembers(s.seen, h.reply.messages);
      forall m | m in h.reply.messages ensures m.id in h.state.seen {
        var k :| 0 <= k < |h.reply.messages| && h.reply.messages[k] == m;
        assert Ids(h.reply.messages)[k] == m.id;
      }
    }
  }

  /** A first poll (empty seen set) returns every item of the page, none filtered. */
  lemma FirstPollReturnsAll(cursor: Option<string>, videoId: Option<string>, apiKey: string,
                            lookup: VideoResponse, items: seq<ChatItem>, token: Option<string>)
    requires Truthy(videoId) && LiveChatIdOf(lookup).Some?
    ensures Poll(PollerState([], cursor), videoId, apiKey, Received(lookup), Received(ChatResponse(Some(items), token))).reply
            == Listed(items)
  {
  }

  /**
   * Cursor propagation across two calls: after a page with a truthy token, the
   * next chat request carries exactly that token; after a page without one, the
   * next request carries none.
   */
  lemma CursorPropagates(s: PollerState, videoId: Option<string>, apiKey: string,
                         video: Fetched<VideoResponse>, page: ChatResponse,
                         videoId2: Option<string>, video2: Fetched<VideoResponse>, chat2: Fetched<ChatResponse>)
    ensures var h := Poll(s, videoId, apiKey, video, Received(page));
      var h2 := Poll(h.state, videoId2, apiKey, video2, chat2);
      ((h.reply.Listed? || h.reply.Unlisted?) && h2.request.Some?) ==>
        ParamValues(h2.request.value, "pageToken") ==
          (if Truthy(page.nextPageToken) then [page.nextPageToken.value] else [])
  {
  }

  // ---------------------------------------------------------------------------
  // Line 43 as written
  // ---------------------------------------------------------------------------

  /**
   * As written, the guard lets already-seen messages through: a message whose
   * id is in a non-empty seen set is returned again, where the intended
   * selection withholds it.
   */
  lemma AsWrittenRedeliversSeen(seen: seq<string>, items: seq<ChatItem>, m: ChatItem)
    requires m in items && m.id in seen
    ensures m in SelectNewAsWritten(seen, items)
    ensures m !in SelectNew(seen, items)
  {
  }
}
