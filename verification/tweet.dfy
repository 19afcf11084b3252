/**
 * The tweet entity: its derived properties and its dictionary form.
 *
 * Instants are whole seconds; a dictionary value `VTime(t)` is the ISO-8601 string for `t` and
 * `VDateTime(t)` the `datetime` object itself. `datetime.now()` is the parameter `now`.
 */
module Tweets {
  import opened Wrappers
  import opened Values

  datatype ContentType = Announcement | Analysis | News | Discussion | Educational | Promotional | Other
  {
    /** The enum member's string value. */
    function Name(): (s: string)
      ensures |s| > 0
    {
      match this
      case Announcement => "announcement"
      case Analysis => "analysis"
      case News => "news"
      case Discussion => "discussion"
      case Educational => "educational"
      case Promotional => "promotional"
      case Other => "other"
    }
  }

  /** `ContentType(s)`: the member whose value is `s`, if any. */
  function ParseContentType(s: string): (c: Option<ContentType>)
    ensures c.Some? ==> c.value.Name() == s
    ensures c.None? ==> forall t: ContentType :: t.Name() != s
  {
    if s == "announcement" then Some(Announcement)
    else if s == "analysis" then Some(Analysis)
    else if s == "news" then Some(News)
    else if s == "discussion" then Some(Discussion)
    else if s == "educational" then Some(Educational)
    else if s == "promotional" then Some(Promotional)
    else if s == "other" then Some(Other)
    else None
  }

  datatype UserMetadata = UserMetadata(userId: string, username: string, displayName: string, createdAt: int,
                                       description: string, verified: bool, profileImageUrl: string,
                                       publicMetrics: Record)

  datatype MediaAttachment = MediaAttachment(linksAnalyzed: seq<Value>, imagesAnalyzed: seq<Value>,
                                             totalProcessingTime: real, summary: Record)

  datatype ThreadContext = ThreadContext(conversationId: Option<string>, isThread: bool,
                                         inReplyToUserId: Option<string>, threadPosition: Option<int>)

  /**
   * A tweet after `__post_init__`: the processing timestamp is always set. `conversationContext`
   * is kept as the untyped value it was given (`VNone` for `None`).
   */
  datatype Tweet = Tweet(tweetId: string, text: string, createdAt: int, authorUsername: string, authorId: string,
                         likes: int, retweets: int, replies: int, quotes: int,
                         userMetadata: Option<UserMetadata>, media: Option<MediaAttachment>,
                         externalLinks: seq<string>, thread: Option<ThreadContext>, conversationContext: Value,
                         contentType: Option<ContentType>, processingTimestamp: int)

  // ---------------------------------------------------------------------------------------------
  // Derived properties
  // ---------------------------------------------------------------------------------------------

  /** `engagement_score`: total interactions per hundred, capped at 10. */
  function EngagementScore(t: Tweet): (e: real)
    ensures e <= 10.0
    ensures e == 10.0 <==> t.likes + t.retweets + t.replies + t.quotes >= 1000
    ensures t.likes >= 0 && t.retweets >= 0 && t.replies >= 0 && t.quotes >= 0 ==> 0.0 <= e
  {
    var total := t.likes + t.retweets + t.replies + t.quotes;
    if 10.0 <= total as real / 100.0 then 10.0 else total as real / 100.0
  }

  /** More interactions never lower the score. */
  lemma {:induction false} EngagementMonotone(t: Tweet, u: Tweet)
    requires t.likes <= u.likes && t.retweets <= u.retweets && t.replies <= u.replies && t.quotes <= u.quotes
    ensures EngagementScore(t) <= EngagementScore(u)
  {
  }

  /** `has_media`: attachments are present and analysed at least one link or image. */
  function HasMedia(t: Tweet): bool
  {
    t.media.Some? && (|t.media.value.linksAnalyzed| > 0 || |t.media.value.imagesAnalyzed| > 0)
  }

  /** `is_thread_tweet`: a thread context is present and says the tweet is in a thread. */
  function IsThreadTweet(t: Tweet): bool
  {
    t.thread.Some? && t.thread.value.isThread
  }

  // ---------------------------------------------------------------------------------------------
  // Dictionary form
  // ---------------------------------------------------------------------------------------------

  function OptStr(s: Option<string>): Value
  {
    if s.Some? then VStr(s.value) else VNone
  }

  function OptInt(n: Option<int>): Value
  {
    if n.Some? then VInt(n.value) else VNone
  }

  function Strs(xs: seq<string>): (vs: seq<Value>)
    ensures |vs| == |xs| && forall i :: 0 <= i < |xs| ==> vs[i] == VStr(xs[i])
  {
    if |xs| == 0 then [] else [VStr(xs[0])] + Strs(xs[1..])
  }

  /** `UserMetadata.__dict__`: the creation time stays a `datetime` object. */
  function UserDict(u: UserMetadata): Record
  {
    map["user_id" := VStr(u.userId), "username" := VStr(u.username), "display_name" := VStr(u.displayName),
        "created_at" := VDateTime(u.createdAt), "description" := VStr(u.description), "verified" := VBool(u.verified),
        "profile_image_url" := VStr(u.profileImageUrl), "public_metrics" := VDict(u.publicMetrics)]
  }

  function MediaDict(m: MediaAttachment): Record
  {
    map["links_analyzed" := VList(m.linksAnalyzed), "images_analyzed" := VList(m.imagesAnalyzed),
        "total_processing_time" := VReal(m.totalProcessingTime), "summary" := VDict(m.summary)]
  }

  function ThreadDict(c: ThreadContext): Record
  {
    map["conversation_id" := OptStr(c.conversationId), "is_thread" := VBool(c.isThread),
        "in_reply_to_user_id" := OptStr(c.inReplyToUserId), "thread_position" := OptInt(c.threadPosition)]
  }

  /** The values `to_dict` computes from the tweet's parts, before they are laid out under their keys. */
  datatype Written = Written(user: Value, media: Value, links: Value, thread: Value, contentType: Value,
                             engagement: Value, hasMedia: Value, isThread: Value)

  function WrittenOf(t: Tweet): Written
  {
    Written((if t.userMetadata.Some? then VDict(UserDict(t.userMetadata.value)) else VNone),
            (if t.media.Some? then VDict(MediaDict(t.media.value)) else VNone),
            VList(Strs(t.externalLinks)),
            (if t.thread.Some? then VDict(ThreadDict(t.thread.value)) else VNone),
            (if t.contentType.Some? then VStr(t.contentType.value.Name()) else VNone),
            VReal(EngagementScore(t)), VBool(HasMedia(t)), VBool(IsThreadTweet(t)))
  }

  /** `to_dict`'s keys, holding the tweet's plain fields and the computed values `w`. */
  function Layout(t: Tweet, w: Written): Record
  {
    map["tweet_id" := VStr(t.tweetId), "text" := VStr(t.text), "created_at" := VTime(t.createdAt),
        "author_username" := VStr(t.authorUsername), "author_id" := VStr(t.authorId),
        "like_count" := VInt(t.likes), "retweet_count" := VInt(t.retweets),
        "reply_count" := VInt(t.replies), "quote_count" := VInt(t.quotes),
        "user_metadata" := w.user, "media_attachments" := w.media, "external_links" := w.links,
        "thread_context" := w.thread, "conversation_context" := t.conversationContext,
        "content_type" := w.contentType, "processing_timestamp" := VTime(t.processingTimestamp),
        "engagement_score" := w.engagement, "has_media" := w.hasMedia, "is_thread_tweet" := w.isThread]
  }

  /**
   * `to_dict`, including the three derived properties. The tweet's own two times become ISO
   * strings; the user metadata's creation time stays a `datetime` object.
   */
  function ToDict(t: Tweet): Record
  {
    Layout(t, WrittenOf(t))
  }

  // Readers for `data.get(key, default)` into a typed field. A value of another type than the field's
  // is reported as an exception (Python would keep the foreign value).

  function ReadStr(d: Record, k: string): (r: Result<string>)
    ensures k !in d ==> r == Ok("")
    ensures k in d && d[k].VStr? ==> r == Ok(d[k].s)
    ensures r.Ok? <==> k !in d || d[k].VStr?
  {
    match Get(d, k, VStr(""))
    case VStr(s) => Ok(s)
    case _ => Raised("TypeError: " + k)
  }

  function ReadInt(d: Record, k: string): (r: Result<int>)
    ensures k !in d ==> r == Ok(0)
    ensures k in d && d[k].VInt? ==> r == Ok(d[k].i)
    ensures r.Ok? <==> k !in d || d[k].VInt?
  {
    match Get(d, k, VInt(0))
    case VInt(i) => Ok(i)
    case _ => Raised("TypeError: " + k)
  }

  function ReadBool(d: Record, k: string): (r: Result<bool>)
    ensures k !in d ==> r == Ok(false)
    ensures k in d && d[k].VBool? ==> r == Ok(d[k].b)
    ensures r.Ok? <==> k !in d || d[k].VBool?
  {
    match Get(d, k, VBool(false))
    case VBool(b) => Ok(b)
    case _ => Raised("TypeError: " + k)
  }

  function ReadOptStr(d: Record, k: string): (r: Result<Option<string>>)
    ensures k !in d ==> r == Ok(None)
    ensures k in d && d[k].VNone? ==> r == Ok(None)
    ensures k in d && d[k].VStr? ==> r == Ok(Some(d[k].s))
    ensures r.Ok? <==> k !in d || d[k].VNone? || d[k].VStr?
  {
    match Get(d, k, VNone)
    case VNone => Ok(None)
    case VStr(s) => Ok(Some(s))
    case _ => Raised("TypeError: " + k)
  }

  function ReadOptInt(d: Record, k: string): (r: Result<Option<int>>)
    ensures k !in d ==> r == Ok(None)
    ensures k in d && d[k].VNone? ==> r == Ok(None)
    ensures k in d && d[k].VInt? ==> r == Ok(Some(d[k].i))
    ensures r.Ok? <==> k !in d || d[k].VNone? || d[k].VInt?
  {
    match Get(d, k, VNone)
    case VNone => Ok(None)
    case VInt(i) => Ok(Some(i))
    case _ => Raised("TypeError: " + k)
  }

  function ReadRecord(d: Record, k: string): (r: Result<Record>)
    ensures k !in d ==> r == Ok(map[])
    ensures k in d && d[k].VDict? ==> r == Ok(d[k].fields)
    ensures r.Ok? <==> k !in d || d[k].VDict?
  {
    match Get(d, k, VDict(map[]))
    case VDict(f) => Ok(f)
    case _ => Raised("TypeError: " + k)
  }

  function ReadValues(d: Record, k: string): (r: Result<seq<Value>>)
    ensures k !in d ==> r == Ok([])
    ensures k in d && d[k].VList? ==> r == Ok(d[k].items)
    ensures r.Ok? <==> k !in d || d[k].VList?
  {
    match Get(d, k, VList([]))
    case VList(items) => Ok(items)
    case _ => Raised("TypeError: " + k)
  }

  function ReadReal(d: Record, k: string): (r: Result<real>)
    ensures k !in d ==> r == Ok(0.0)
    ensures k in d && d[k].VReal? ==> r == Ok(d[k].r)
    ensures k in d && d[k].VInt? ==> r == Ok(d[k].i as real)
    ensures r.Ok? <==> k !in d || d[k].VReal? || d[k].VInt?
  {
    match Get(d, k, VReal(0.0))
    case VReal(x) => Ok(x)
    case VInt(i) => Ok(i as real)
    case _ => Raised("TypeError: " + k)
  }

  /** The strings of a list of values; any other element is reported. */
  function StrList(vs: seq<Value>): (r: Result<seq<string>>)
    ensures r.Ok? <==> forall i :: 0 <= i < |vs| ==> vs[i].VStr?
    ensures r.Ok? ==> |r.value| == |vs| && forall i :: 0 <= i < |vs| ==> r.value[i] == vs[i].s
  {
    if |vs| == 0 then Ok([])
    else if !vs[0].VStr? then Raised("TypeError: external_links")
    else
      var rest :- StrList(vs[1..]);
      Ok([vs[0].s] + rest)
  }

  lemma {:induction false} StrListStrs(xs: seq<string>)
    ensures StrList(Strs(xs)) == Ok(xs)
  {
    if |xs| > 0 {
      StrListStrs(xs[1..]);
      var vs := Strs(xs);
      assert vs[0] == VStr(xs[0]) && vs[1..] == Strs(xs[1..]);
      assert StrList(vs) == Ok([xs[0]] + xs[1..]);
      assert [xs[0]] + xs[1..] == xs;
    }
  }

  /**
   * `datetime.fromisoformat(d[k]) if d.get(k) else datetime.now()`. A `datetime` object is accepted
   * only when `objects` holds: `fromisoformat` itself rejects it.
   */
  function ReadInstant(d: Record, k: string, now: int, objects: bool): (r: Result<int>)
    ensures k !in d ==> r == Ok(now)
    ensures k in d && d[k].VTime? ==> r == Ok(d[k].t)
    ensures k in d && d[k].VDateTime? ==> (r.Ok? <==> objects)
  {
    var v := Get(d, k, VNone);
    if !Truthy(v) then Ok(now)
    else match v
      case VTime(t) => Ok(t)
      case VDateTime(t) => if objects then Ok(t) else Raised("TypeError: fromisoformat: argument must be str")
      case _ => Raised("ValueError: Invalid isoformat string")
  }

  /** `d[k]` as a nested dictionary when it is truthy; a truthy non-dictionary has no `.get`. */
  function ReadNested(d: Record, k: string): (r: Result<Option<Record>>)
    ensures k !in d ==> r == Ok(None)
    ensures k in d && !Truthy(d[k]) ==> r == Ok(None)
    ensures k in d && Truthy(d[k]) && d[k].VDict? ==> r == Ok(Some(d[k].fields))
    ensures k in d && Truthy(d[k]) && !d[k].VDict? ==> r.Raised?
  {
    var v := Get(d, k, VNone);
    if !Truthy(v) then Ok(None)
    else if v.VDict? then Ok(Some(v.fields))
    else Raised("AttributeError: " + k)
  }

  function ReadUser(u: Record, now: int, objects: bool): Result<UserMetadata>
  {
    var userId :- ReadStr(u, "user_id");
    var username :- ReadStr(u, "username");
    var displayName :- ReadStr(u, "display_name");
    var createdAt :- ReadInstant(u, "created_at", now, objects);
    var description :- ReadStr(u, "description");
    var verified :- ReadBool(u, "verified");
    var image :- ReadStr(u, "profile_image_url");
    var metrics :- ReadRecord(u, "public_metrics");
    Ok(UserMetadata(userId, username, displayName, createdAt, description, verified, image, metrics))
  }

  function ReadMedia(m: Record): Result<MediaAttachment>
  {
    var links :- ReadValues(m, "links_analyzed");
    var images :- ReadValues(m, "images_analyzed");
    var time :- ReadReal(m, "total_processing_time");
    var summary :- ReadRecord(m, "summary");
    Ok(MediaAttachment(links, images, time, summary))
  }

  function ReadThread(c: Record): Result<ThreadContext>
  {
    var conversation :- ReadOptStr(c, "conversation_id");
    var isThread :- ReadBool(c, "is_thread");
    var replyTo :- ReadOptStr(c, "in_reply_to_user_id");
    var position :- ReadOptInt(c, "thread_position");
    Ok(ThreadContext(conversation, isThread, replyTo, position))
  }

  function ReadOptUser(d: Record, now: int, objects: bool): Result<Option<UserMetadata>>
  {
    var data :- ReadNested(d, "user_metadata");
    if data.None? then Ok(None)
    else
      var u :- ReadUser(data.value, now, objects);
      Ok(Some(u))
  }

  function ReadOptMedia(d: Record): Result<Option<MediaAttachment>>
  {
    var data :- ReadNested(d, "media_attachments");
    if data.None? then Ok(None)
    else
      var m :- ReadMedia(data.value);
      Ok(Some(m))
  }

  function ReadOptThread(d: Record): Result<Option<ThreadContext>>
  {
    var data :- ReadNested(d, "thread_context");
    if data.None? then Ok(None)
    else
      var c :- ReadThread(data.value);
      Ok(Some(c))
  }

  /** `ContentType(v)` when `v` is truthy, falling back to `OTHER` on a value no member has. */
  function ReadContentType(d: Record): (c: Option<ContentType>)
    ensures "content_type" !in d ==> c.None?
    ensures "content_type" in d && d["content_type"].VStr? && |d["content_type"].s| > 0 ==>
      (c.Some? && (c.value == Other <==> forall t: ContentType :: t != Other ==> t.Name() != d["content_type"].s))
  {
    var v := Get(d, "content_type", VNone);
    if !Truthy(v) then None
    else if v.VStr? && ParseContentType(v.s).Some? then ParseContentType(v.s)
    else Some(Other)
  }

  /** The four string fields of the tweet itself. */
  datatype Identity = Identity(tweetId: string, text: string, authorUsername: string, authorId: string)

  /** The four engagement counts. */
  datatype Counts = Counts(likes: int, retweets: int, replies: int, quotes: int)

  function ReadIdentity(d: Record): Result<Identity>
  {
    var tweetId :- ReadStr(d, "tweet_id");
    var text :- ReadStr(d, "text");
    var username :- ReadStr(d, "author_username");
    var authorId :- ReadStr(d, "author_id");
    Ok(Identity(tweetId, text, username, authorId))
  }

  function ReadCounts(d: Record): Result<Counts>
  {
    var likes :- ReadInt(d, "like_count");
    var retweets :- ReadInt(d, "retweet_count");
    var replies :- ReadInt(d, "reply_count");
    var quotes :- ReadInt(d, "quote_count");
    Ok(Counts(likes, retweets, replies, quotes))
  }

  function ReadLinks(d: Record): Result<seq<string>>
  {
    var values :- ReadValues(d, "external_links");
    StrList(values)
  }

  /**
   * `from_dict`, followed by `__post_init__`. `objects` says whether the user metadata's creation
   * time may be a `datetime` object, which is what `to_dict` writes there. The tweet's own two
   * times always go through `fromisoformat`, which rejects a `datetime` object.
   */
  function FromDictWith(d: Record, now: int, objects: bool): (r: Result<Tweet>)
    ensures r.Ok? ==> r.value.contentType == ReadContentType(d)
    ensures r.Ok? && "processing_timestamp" !in d ==> r.value.processingTimestamp == now
    ensures r.Ok? && "created_at" !in d ==> r.value.createdAt == now
    ensures r.Ok? ==> r.value.conversationContext == Get(d, "conversation_context", VNone)
  {
    var createdAt :- ReadInstant(d, "created_at", now, false);
    var stamp :- ReadInstant(d, "processing_timestamp", now, false);
    var user :- ReadOptUser(d, now, objects);
    var media :- ReadOptMedia(d);
    var thread :- ReadOptThread(d);
    var id :- ReadIdentity(d);
    var n :- ReadCounts(d);
    var links :- ReadLinks(d);
    Ok(Tweet(id.tweetId, id.text, createdAt, id.authorUsername, id.authorId, n.likes, n.retweets, n.replies, n.quotes,
             user, media, links, thread, Get(d, "conversation_context", VNone), ReadContentType(d), stamp))
  }

  /** A `datetime` object as the tweet's own creation time is rejected by both readers. */
  lemma {:induction false} TopLevelDateTimeRejected(d: Record, now: int, objects: bool)
    requires "created_at" in d && d["created_at"].VDateTime?
    ensures FromDictWith(d, now, objects).Raised?
  {
    assert ReadInstant(d, "created_at", now, false).Raised?;
  }

  /** Accepting `datetime` objects only turns some failures into results. */
  lemma {:induction false} ReadOptUserObjects(d: Record, now: int)
    ensures ReadOptUser(d, now, false).Ok? ==> ReadOptUser(d, now, false) == ReadOptUser(d, now, true)
  {
  }

  /** `from_dict` as written: `fromisoformat` is applied to whatever the user metadata holds. */
  function FromDictAsWritten(d: Record, now: int): (r: Result<Tweet>)
    ensures r.Ok? ==> r == FromDict(d, now)
  {
    ReadOptUserObjects(d, now);
    FromDictWith(d, now, false)
  }

  /** `from_dict` reading back the user metadata `to_dict` writes. */
  function FromDict(d: Record, now: int): (r: Result<Tweet>)
    ensures r.Ok? ==> r.value.contentType == ReadContentType(d)
  {
    FromDictWith(d, now, true)
  }

  // The entries of a tweet's dictionary the reader looks at, a few keys at a time. Each is read off
  // the layout with the computed values left abstract.

  lemma {:induction false} LayoutIdentityEntries(t: Tweet, w: Written)
    ensures var d := Layout(t, w);
      && "tweet_id" in d && d["tweet_id"] == VStr(t.tweetId) && "text" in d && d["text"] == VStr(t.text)
      && "author_username" in d && d["author_username"] == VStr(t.authorUsername)
      && "author_id" in d && d["author_id"] == VStr(t.authorId)
  {
  }

  lemma {:induction false} LayoutCountEntries(t: Tweet, w: Written)
    ensures var d := Layout(t, w);
      && "like_count" in d && d["like_count"] == VInt(t.likes)
      && "retweet_count" in d && d["retweet_count"] == VInt(t.retweets)
      && "reply_count" in d && d["reply_count"] == VInt(t.replies)
      && "quote_count" in d && d["quote_count"] == VInt(t.quotes)
  {
  }

  lemma {:induction false} LayoutTimeEntries(t: Tweet, w: Written)
    ensures var d := Layout(t, w);
      && "created_at" in d && d["created_at"] == VTime(t.createdAt)
      && "processing_timestamp" in d && d["processing_timestamp"] == VTime(t.processingTimestamp)
      && "conversation_context" in d && d["conversation_context"] == t.conversationContext
  {
  }

  lemma {:induction false} LayoutWrittenEntries(t: Tweet, w: Written)
    ensures var d := Layout(t, w);
      && "user_metadata" in d && d["user_metadata"] == w.user
      && "media_attachments" in d && d["media_attachments"] == w.media
      && "external_links" in d && d["external_links"] == w.links
      && "thread_context" in d && d["thread_context"] == w.thread
      && "content_type" in d && d["content_type"] == w.contentType
      && "engagement_score" in d && d["engagement_score"] == w.engagement
      && "has_media" in d && d["has_media"] == w.hasMedia
      && "is_thread_tweet" in d && d["is_thread_tweet"] == w.isThread
  {
  }

  lemma {:induction false} IdEntries(t: Tweet)
    ensures var d := ToDict(t);
      "tweet_id" in d && d["tweet_id"] == VStr(t.tweetId) && "text" in d && d["text"] == VStr(t.text)
  {
    LayoutIdentityEntries(t, WrittenOf(t));
  }

  lemma {:induction false} AuthorEntries(t: Tweet)
    ensures var d := ToDict(t);
      && "author_username" in d && d["author_username"] == VStr(t.authorUsername)
      && "author_id" in d && d["author_id"] == VStr(t.authorId)
  {
    LayoutIdentityEntries(t, WrittenOf(t));
  }

  lemma {:induction false} CountEntries(t: Tweet)
    ensures var d := ToDict(t);
      && "like_count" in d && d["like_count"] == VInt(t.likes)
      && "retweet_count" in d && d["retweet_count"] == VInt(t.retweets)
      && "reply_count" in d && d["reply_count"] == VInt(t.replies)
      && "quote_count" in d && d["quote_count"] == VInt(t.quotes)
  {
    LayoutCountEntries(t, WrittenOf(t));
  }

  lemma {:induction false} TimeEntries(t: Tweet)
    ensures var d := ToDict(t);
      && "created_at" in d && d["created_at"] == VTime(t.createdAt)
      && "processing_timestamp" in d && d["processing_timestamp"] == VTime(t.processingTimestamp)
      && "conversation_context" in d && d["conversation_context"] == t.conversationContext
  {
    LayoutTimeEntries(t, WrittenOf(t));
  }

  lemma {:induction false} ListEntries(t: Tweet)
    ensures var d := ToDict(t);
      && "external_links" in d && d["external_links"] == VList(Strs(t.externalLinks))
      && "content_type" in d && d["content_type"] == (if t.contentType.Some? then VStr(t.contentType.value.Name()) else VNone)
  {
    LayoutWrittenEntries(t, WrittenOf(t));
  }

  lemma {:induction false} NestedEntries(t: Tweet)
    ensures var d := ToDict(t);
      && "user_metadata" in d && d["user_metadata"] == (if t.userMetadata.Some? then VDict(UserDict(t.userMetadata.value)) else VNone)
      && "media_attachments" in d && d["media_attachments"] == (if t.media.Some? then VDict(MediaDict(t.media.value)) else VNone)
      && "thread_context" in d && d["thread_context"] == (if t.thread.Some? then VDict(ThreadDict(t.thread.value)) else VNone)
  {
    LayoutWrittenEntries(t, WrittenOf(t));
  }

  /** The dictionary always has a user_metadata entry, a dictionary exactly when the tweet has user metadata. */
  lemma {:induction false} UserMetadataEntry(t: Tweet)
    ensures "user_metadata" in ToDict(t) && (t.userMetadata.Some? <==> ToDict(t)["user_metadata"].VDict?)
  {
    NestedEntries(t);
  }

  lemma {:induction false} UserRoundTrip(u: UserMetadata, now: int)
    ensures ReadUser(UserDict(u), now, true) == Ok(u)
  {
  }

  lemma {:induction false} MediaRoundTrip(m: MediaAttachment)
    ensures ReadMedia(MediaDict(m)) == Ok(m)
  {
  }

  lemma {:induction false} ThreadRoundTrip(c: ThreadContext)
    ensures ReadThread(ThreadDict(c)) == Ok(c)
  {
  }

  lemma {:induction false} IdentityRoundTrip(t: Tweet)
    ensures ReadIdentity(ToDict(t)) == Ok(Identity(t.tweetId, t.text, t.authorUsername, t.authorId))
  {
    IdEntries(t);
    AuthorEntries(t);
  }

  lemma {:induction false} CountsRoundTrip(t: Tweet)
    ensures ReadCounts(ToDict(t)) == Ok(Counts(t.likes, t.retweets, t.replies, t.quotes))
  {
    CountEntries(t);
  }

  lemma {:induction false} ListsRoundTrip(t: Tweet)
    ensures ReadLinks(ToDict(t)) == Ok(t.externalLinks)
    ensures ReadContentType(ToDict(t)) == t.contentType
  {
    ListEntries(t);
    StrListStrs(t.externalLinks);
    if t.contentType.Some? {
      assert ParseContentType(t.contentType.value.Name()) == t.contentType;
    }
  }

  lemma {:induction false} NestedRoundTrip(t: Tweet, now: int)
    ensures ReadOptUser(ToDict(t), now, true) == Ok(t.userMetadata)
    ensures ReadOptMedia(ToDict(t)) == Ok(t.media)
    ensures ReadOptThread(ToDict(t)) == Ok(t.thread)
  {
    NestedEntries(t);
    UserEntryRoundTrip(ToDict(t), t.userMetadata, now);
    MediaEntryRoundTrip(ToDict(t), t.media);
    ThreadEntryRoundTrip(ToDict(t), t.thread);
  }

  lemma {:induction false} UserEntryRoundTrip(d: Record, u: Option<UserMetadata>, now: int)
    requires "user_metadata" in d && d["user_metadata"] == (if u.Some? then VDict(UserDict(u.value)) else VNone)
    ensures ReadOptUser(d, now, true) == Ok(u)
  {
    if u.Some? {
      UserRoundTrip(u.value, now);
    }
  }

  lemma {:induction false} MediaEntryRoundTrip(d: Record, m: Option<MediaAttachment>)
    requires "media_attachments" in d && d["media_attachments"] == (if m.Some? then VDict(MediaDict(m.value)) else VNone)
    ensures ReadOptMedia(d) == Ok(m)
  {
    if m.Some? {
      MediaRoundTrip(m.value);
    }
  }

  lemma {:induction false} ThreadEntryRoundTrip(d: Record, c: Option<ThreadContext>)
    requires "thread_context" in d && d["thread_context"] == (if c.Some? then VDict(ThreadDict(c.value)) else VNone)
    ensures ReadOptThread(d) == Ok(c)
  {
    if c.Some? {
      ThreadRoundTrip(c.value);
    }
  }

  /** Reading a tweet back from its dictionary gives the same tweet. */
  lemma {:induction false} RoundTrip(t: Tweet, now: int)
    ensures FromDict(ToDict(t), now) == Ok(t)
  {
    var d := ToDict(t);
    TimeEntries(t);
    IdentityRoundTrip(t);
    CountsRoundTrip(t);
    ListsRoundTrip(t);
    NestedRoundTrip(t, now);
    assert ReadInstant(d, "created_at", now, true) == Ok(t.createdAt);
    assert ReadInstant(d, "processing_timestamp", now, true) == Ok(t.processingTimestamp);
  }

  /** The derived flags `to_dict` writes agree with the ones recomputed from the tweet read back. */
  lemma {:induction false} DerivedEntriesAgree(t: Tweet, now: int)
    ensures var d := ToDict(t);
      && FromDict(d, now).Ok?
      && "has_media" in d && d["has_media"] == VBool(HasMedia(FromDict(d, now).value))
      && "is_thread_tweet" in d && d["is_thread_tweet"] == VBool(IsThreadTweet(FromDict(d, now).value))
      && "engagement_score" in d && d["engagement_score"] == VReal(EngagementScore(FromDict(d, now).value))
  {
    RoundTrip(t, now);
  }

  /**
   * Within one dictionary, the stored `has_media` flag says whether the stored attachments list some
   * analysed link or image, and the stored `is_thread_tweet` flag says whether the stored thread
   * context is marked as a thread.
   */
  lemma {:induction false} DerivedFlagsFromEntries(t: Tweet)
    ensures var d := ToDict(t);
      && "has_media" in d && "media_attachments" in d
      && (d["has_media"] == VBool(true) <==>
            && d["media_attachments"].VDict?
            && "links_analyzed" in d["media_attachments"].fields && "images_analyzed" in d["media_attachments"].fields
            && (d["media_attachments"].fields["links_analyzed"] != VList([])
                || d["media_attachments"].fields["images_analyzed"] != VList([])))
      && "is_thread_tweet" in d && "thread_context" in d
      && (d["is_thread_tweet"] == VBool(true) <==>
            && d["thread_context"].VDict?
            && "is_thread" in d["thread_context"].fields
            && d["thread_context"].fields["is_thread"] == VBool(true))
  {
    NestedEntries(t);
    LayoutWrittenEntries(t, WrittenOf(t));
  }

  /** As written, the round trip holds for tweets without user metadata. */
  lemma {:induction false} RoundTripWithoutUser(t: Tweet, now: int)
    requires t.userMetadata.None?
    ensures FromDictAsWritten(ToDict(t), now) == Ok(t)
  {
    var d := ToDict(t);
    RoundTrip(t, now);
    NestedEntries(t);
    assert ReadOptUser(d, now, false) == Ok(None) == ReadOptUser(d, now, true);
    ReadersAgree(d, now);
  }

  /** The two readers differ only in how they read the user metadata. */
  lemma {:induction false} ReadersAgree(d: Record, now: int)
    requires ReadOptUser(d, now, false) == ReadOptUser(d, now, true)
    ensures FromDictWith(d, now, false) == FromDictWith(d, now, true)
  {
  }

  /** As written, any tweet with user metadata fails to read back from its own dictionary. */
  lemma {:induction false} UserMetadataBreaksRoundTrip(t: Tweet, now: int)
    requires t.userMetadata.Some?
    ensures FromDictAsWritten(ToDict(t), now).Raised?
  {
    TimeEntries(t);
    NestedEntries(t);
    UserReadFails(ToDict(t), t.userMetadata.value, now);
  }

  /**
   * A dictionary with both times as ISO strings and a user record holding a `datetime` object
   * fails the reader as written.
   */
  lemma {:induction false} UserReadFails(d: Record, u: UserMetadata, now: int)
    requires "created_at" in d && d["created_at"].VTime?
    requires "processing_timestamp" in d && d["processing_timestamp"].VTime?
    requires "user_metadata" in d && d["user_metadata"] == VDict(UserDict(u))
    ensures FromDictAsWritten(d, now).Raised?
  {
    assert ReadUser(UserDict(u), now, false).Raised?;
    assert ReadOptUser(d, now, false).Raised?;
  }

  /** Every field missing: empty strings, zero counts, no links, no sub-records, the current time. */
  lemma {:induction false} FromEmptyDict(now: int)
    ensures FromDict(map[], now) == Ok(Tweet("", "", now, "", "", 0, 0, 0, 0, None, None, [], None, VNone, None, now))
  {
  }

  /** A content type no member carries reads back as `OTHER`. */
  lemma {:induction false} UnknownContentType(d: Record, now: int)
    requires "content_type" in d && d["content_type"] == VStr("breaking")
    ensures FromDict(d, now).Ok? ==> FromDict(d, now).value.contentType == Some(Other)
  {
  }
}
