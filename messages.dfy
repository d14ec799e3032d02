/**
 * The inbox of the messages page: the live query delivers every `chats`
 * document the signed-in user takes part in, most recent first, and the
 * snapshot callback reduces that stream to one line per conversation.
 *
 * A conversation is identified by the two participant ids sorted and joined
 * with `_`. Documents without a last message are skipped; for every other
 * conversation the first document seen (the most recent one) is kept.
 *
 * The line also carries the other participant's display name and picture. As
 * written, the lookup calls the loop variable `doc` instead of Firestore's
 * `doc`, throws, and is caught, so every line shows "Unknown User" and no
 * picture (`LoopSnapshot`). The evidently intended lookup reads the stars and
 * then the users (`FirestoreDoc`). Every inbox function takes the binding as a
 * parameter and is proved for both.
 */
module Messages {
  import opened Js
  import Lists

  /** A document of the `chats` collection as the inbox query delivers it. */
  datatype ChatDoc = ChatDoc(
    id: string,
    participants: seq<string>,
    lastMessage: Option<string>,
    lastSenderName: Option<string>,
    updatedAt: int)

  /** A profile document of the `stars` or the `users` collection. */
  datatype Profile = Profile(name: Option<string>, username: Option<string>, profilePicture: Option<string>)

  /** The outcome of one point lookup of a profile document. */
  datatype Fetch = Found(profile: Profile) | NotFound | Failed

  /** One line of the inbox. */
  datatype ChatEntry = ChatEntry(
    id: string,
    lastMessage: string,
    lastSenderName: string,
    participants: seq<string>,
    updatedAt: int,
    otherUserName: Option<string>,
    otherUserImage: Option<string>)

  // ---------------------------------------------------------------------------
  // The conversation key
  // ---------------------------------------------------------------------------

  /** `participants.find(id => id !== uid)`: the first participant who is not the viewer. */
  function OtherParticipant(uid: string, participants: seq<string>): (r: Option<string>)
    ensures r.None? <==> forall p :: p in participants ==> p == uid
    ensures r.Some? ==> r.value != uid && r.value in participants
  {
    if participants == [] then None
    else if participants[0] != uid then
      assert participants[0] in participants;
      Some(participants[0])
    else
      assert forall p :: p in participants <==> p == participants[0] || p in participants[1..];
      OtherParticipant(uid, participants[1..])
  }

  /** The participant found is the first one that differs from the viewer. */
  lemma {:induction false} OtherParticipantIsFirst(uid: string, participants: seq<string>, i: nat)
    requires i < |participants| && participants[i] != uid
    requires forall j :: 0 <= j < i ==> participants[j] == uid
    ensures OtherParticipant(uid, participants) == Some(participants[i])
  {
    if i > 0 {
      OtherParticipantIsFirst(uid, participants[1..], i - 1);
    }
  }

  /** `[uid, other].sort().join('_')`. The default sort puts an undefined element
    * last and `join` writes it as the empty string. */
  function ConversationKey(uid: string, other: Option<string>): (key: string)
    ensures other.None? ==> key == uid + "_"
    ensures other.Some? ==> key == uid + "_" + other.value || key == other.value + "_" + uid
  {
    match other
    case None => uid + "_"
    case Some(o) => var s := Sort2(uid, o); s[0] + "_" + s[1]
  }

  /** The key the viewer `uid` derives from a chat document. */
  function DocKey(uid: string, d: ChatDoc): string
  {
    ConversationKey(uid, OtherParticipant(uid, d.participants))
  }

  function KeyFn(uid: string): ChatDoc -> string
  {
    d => DocKey(uid, d)
  }

  /** The key does not depend on which of the two users is looking. */
  lemma ConversationKeySymmetric(a: string, b: string)
    ensures ConversationKey(a, Some(b)) == ConversationKey(b, Some(a))
  {
    LessTrichotomy(a, b);
  }

  /** Both participants of a two-party chat document derive the same key from it. */
  lemma SameKeyForBothParticipants(d: ChatDoc, a: string, b: string)
    requires d.participants == [a, b] && a != b
    ensures DocKey(a, d) == DocKey(b, d)
  {
    assert OtherParticipant(a, d.participants) == Some(b);
    assert OtherParticipant(b, d.participants) == Some(a);
    ConversationKeySymmetric(a, b);
  }

  // ---------------------------------------------------------------------------
  // One inbox line
  // ---------------------------------------------------------------------------

  /** `if (!chatData.lastMessage) continue;` is not taken. */
  predicate Eligible(d: ChatDoc)
  {
    Truthy(d.lastMessage)
  }

  /** The profile found for the other participant: the `stars` document if it exists,
    * else the `users` document. A failed lookup, or no other participant at all (the
    * lookup of an undefined id throws inside the `try`), finds nothing. */
  function OtherProfile(other: Option<string>, stars: string -> Fetch, users: string -> Fetch): (r: Option<Profile>)
    ensures other.Some? && stars(other.value).Found? ==> r == Some(stars(other.value).profile)
    ensures (other.Some? && stars(other.value).NotFound? && users(other.value).Found?)
              ==> r == Some(users(other.value).profile)
    ensures r.Some? <==> other.Some? && (stars(other.value).Found? || (stars(other.value).NotFound? && users(other.value).Found?))
  {
    match other
    case None => None
    case Some(o) =>
      match stars(o)
      case Found(p) => Some(p)
      case Failed => None
      case NotFound => if users(o).Found? then Some(users(o).profile) else None
  }

  /** `name || username` of the profile found, `'Unknown User'` when there is none. */
  function DisplayName(profile: Option<Profile>): (r: Option<string>)
    ensures profile.None? ==> r == Some("Unknown User")
    ensures profile.Some? && Truthy(profile.value.name) ==> r == profile.value.name
    ensures profile.Some? && !Truthy(profile.value.name) ==> r == profile.value.username
  {
    match profile
    case None => Some("Unknown User")
    case Some(p) => Or(p.name, p.username)
  }

  /** Which `doc` the lookup of the other participant calls. As written the loop variable
    * `doc` (a document snapshot) shadows Firestore's reference builder, so the call throws
    * inside the `try`, the `catch` only logs, and no profile is read. As evidently intended
    * it is Firestore's `doc`, and the stars and then the users are looked up. */
  datatype DocBinding = LoopSnapshot | FirestoreDoc

  /** What the `try` around the two lookups leaves in `userData`. */
  function LookupOther(b: DocBinding, other: Option<string>, stars: string -> Fetch, users: string -> Fetch): Option<Profile>
  {
    match b
    case LoopSnapshot => None
    case FirestoreDoc => OtherProfile(other, stars, users)
  }

  /** The inbox line built from a kept document. */
  function Summarize(b: DocBinding, uid: string, d: ChatDoc, stars: string -> Fetch, users: string -> Fetch): (e: ChatEntry)
    requires Eligible(d)
    ensures e.id == d.id && e.participants == d.participants && e.updatedAt == d.updatedAt
    ensures e.lastMessage == d.lastMessage.value && e.lastMessage != ""
    ensures e.lastSenderName == if Truthy(d.lastSenderName) then d.lastSenderName.value else ""
    ensures b == LoopSnapshot ==> e.otherUserName == Some("Unknown User") && e.otherUserImage == None
    ensures b == FirestoreDoc ==>
      var profile := OtherProfile(OtherParticipant(uid, d.participants), stars, users);
      && e.otherUserName == DisplayName(profile)
      && e.otherUserImage == if profile.Some? then profile.value.profilePicture else None
  {
    var profile := LookupOther(b, OtherParticipant(uid, d.participants), stars, users);
    ChatEntry(
      d.id,
      d.lastMessage.value,
      if Truthy(d.lastSenderName) then d.lastSenderName.value else "",
      d.participants,
      d.updatedAt,
      DisplayName(profile),
      if profile.Some? then profile.value.profilePicture else None)
  }

  // ---------------------------------------------------------------------------
  // The whole inbox
  // ---------------------------------------------------------------------------

  /** The documents the inbox keeps: among those with a last message, the first of every key. */
  function Kept(uid: string, docs: seq<ChatDoc>): seq<ChatDoc>
  {
    Lists.KeepFirst(Lists.Filter(docs, Eligible), KeyFn(uid))
  }

  lemma KeptEligible(uid: string, docs: seq<ChatDoc>)
    ensures forall d :: d in Kept(uid, docs) ==> d in docs && Eligible(d)
  {
    Lists.KeepFirstKeys(Lists.Filter(docs, Eligible), KeyFn(uid));
  }

  /** The inbox as the page shows it. */
  function Inbox(b: DocBinding, uid: string, docs: seq<ChatDoc>, stars: string -> Fetch, users: string -> Fetch): (r: seq<ChatEntry>)
    ensures |r| <= |docs|
    ensures forall k :: 0 <= k < |r| ==> r[k].lastMessage != ""
  {
    var kept := Kept(uid, docs);
    KeptEligible(uid, docs);
    seq(|kept|, k requires 0 <= k < |kept| => Summarize(b, uid, kept[k], stars, users))
  }

  /** A chat document without a last message never shows up, and every line comes from a document. */
  lemma InboxSkipsDocsWithoutMessage(b: DocBinding, uid: string, docs: seq<ChatDoc>, stars: string -> Fetch, users: string -> Fetch)
    ensures forall e :: e in Inbox(b, uid, docs, stars, users) ==>
      e.lastMessage != "" && exists d :: d in docs && Eligible(d) && d.id == e.id && d.lastMessage == Some(e.lastMessage)
  {
    var kept := Kept(uid, docs);
    KeptEligible(uid, docs);
    var inbox := Inbox(b, uid, docs, stars, users);
    forall e | e in inbox
      ensures e.lastMessage != "" && exists d :: d in docs && Eligible(d) && d.id == e.id && d.lastMessage == Some(e.lastMessage)
    {
      var k :| 0 <= k < |inbox| && inbox[k] == e;
      assert kept[k] in kept;
    }
  }

  /** No two lines of the inbox belong to the same conversation. */
  lemma InboxKeysDistinct(b: DocBinding, uid: string, docs: seq<ChatDoc>, stars: string -> Fetch, users: string -> Fetch)
    ensures var inbox := Inbox(b, uid, docs, stars, users);
      forall i, j :: 0 <= i < j < |inbox| ==>
        ConversationKey(uid, OtherParticipant(uid, inbox[i].participants))
        != ConversationKey(uid, OtherParticipant(uid, inbox[j].participants))
  {
    var kept := Kept(uid, docs);
    Lists.KeepFirstDistinct(Lists.Filter(docs, Eligible), KeyFn(uid));
    var inbox := Inbox(b, uid, docs, stars, users);
    forall i, j | 0 <= i < j < |inbox|
      ensures DocKey(uid, kept[i]) != DocKey(uid, kept[j])
    {
      assert KeyFn(uid)(kept[i]) != KeyFn(uid)(kept[j]);
    }
  }

  /** Every conversation that has a document with a last message has a line. */
  lemma InboxCoversEveryConversation(b: DocBinding, uid: string, docs: seq<ChatDoc>, stars: string -> Fetch, users: string -> Fetch)
    ensures var inbox := Inbox(b, uid, docs, stars, users);
      forall d :: d in docs && Eligible(d) ==>
        exists k :: 0 <= k < |inbox| && ConversationKey(uid, OtherParticipant(uid, inbox[k].participants)) == DocKey(uid, d)
  {
    var eligible := Lists.Filter(docs, Eligible);
    var kept := Kept(uid, docs);
    Lists.KeepFirstKeys(eligible, KeyFn(uid));
    var inbox := Inbox(b, uid, docs, stars, users);
    forall d | d in docs && Eligible(d)
      ensures exists k :: 0 <= k < |inbox| && ConversationKey(uid, OtherParticipant(uid, inbox[k].participants)) == DocKey(uid, d)
    {
      assert KeyFn(uid)(d) in Lists.KeySet(eligible, KeyFn(uid));
      var y :| y in kept && KeyFn(uid)(y) == KeyFn(uid)(d);
      var k :| 0 <= k < |kept| && kept[k] == y;
      assert k < |inbox| && inbox[k].participants == y.participants by {
        InboxLine(b, uid, docs, stars, users, k);
      }
      assert ConversationKey(uid, OtherParticipant(uid, inbox[k].participants)) == DocKey(uid, d);
    }
  }

  /** Line `k` of the inbox belongs to kept document `k`. */
  lemma InboxLine(b: DocBinding, uid: string, docs: seq<ChatDoc>, stars: string -> Fetch, users: string -> Fetch, k: nat)
    requires k < |Kept(uid, docs)|
    ensures var inbox := Inbox(b, uid, docs, stars, users);
      |inbox| == |Kept(uid, docs)| && inbox[k].participants == Kept(uid, docs)[k].participants
  {
  }

  /** As written, the lookup never runs, so every line of the inbox shows "Unknown User"
    * and no picture, whatever the stars and users collections hold. */
  lemma InboxAsWrittenShowsUnknownUser(uid: string, docs: seq<ChatDoc>, stars: string -> Fetch, users: string -> Fetch)
    ensures var inbox := Inbox(LoopSnapshot, uid, docs, stars, users);
      forall k :: 0 <= k < |inbox| ==> inbox[k].otherUserName == Some("Unknown User") && inbox[k].otherUserImage == None
  {
    var kept := Kept(uid, docs);
    KeptEligible(uid, docs);
    var inbox := Inbox(LoopSnapshot, uid, docs, stars, users);
    forall k | 0 <= k < |inbox|
      ensures inbox[k].otherUserName == Some("Unknown User") && inbox[k].otherUserImage == None
    {
      assert kept[k] in kept;
      assert inbox[k] == Summarize(LoopSnapshot, uid, kept[k], stars, users);
    }
  }

  /** The two bindings give the same lines in the same order; they differ only in the name
    * and the picture of the other participant. */
  lemma BindingsDifferOnlyInProfile(uid: string, docs: seq<ChatDoc>, stars: string -> Fetch, users: string -> Fetch)
    ensures var written, intended := Inbox(LoopSnapshot, uid, docs, stars, users), Inbox(FirestoreDoc, uid, docs, stars, users);
      && |written| == |intended|
      && forall k :: 0 <= k < |written| ==>
           written[k] == intended[k].(otherUserName := Some("Unknown User"), otherUserImage := None)
  {
    var kept := Kept(uid, docs);
    KeptEligible(uid, docs);
    var written, intended := Inbox(LoopSnapshot, uid, docs, stars, users), Inbox(FirestoreDoc, uid, docs, stars, users);
    forall k | 0 <= k < |written|
      ensures written[k] == intended[k].(otherUserName := Some("Unknown User"), otherUserImage := None)
    {
      assert kept[k] in kept;
      assert written[k] == Summarize(LoopSnapshot, uid, kept[k], stars, users);
      assert intended[k] == Summarize(FirestoreDoc, uid, kept[k], stars, users);
    }
  }

  /** A star named Bob, and nobody else. */
  function BobStars(id: string): Fetch
  {
    if id == "B" then Found(Profile(Some("Bob"), None, None)) else NotFound
  }

  function NoUsers(id: string): Fetch
  {
    NotFound
  }

  /** The viewer "A" has one chat with the star "B", named Bob: as written the inbox line
    * reads "Unknown User" with no picture; with Firestore's `doc` it reads "Bob". */
  lemma ShadowedDocHidesStarName()
    ensures var d := ChatDoc("c1", ["A", "B"], Some("hi"), None, 0);
      && Inbox(LoopSnapshot, "A", [d], BobStars, NoUsers)
           == [ChatEntry("c1", "hi", "", ["A", "B"], 0, Some("Unknown User"), None)]
      && Inbox(FirestoreDoc, "A", [d], BobStars, NoUsers)
           == [ChatEntry("c1", "hi", "", ["A", "B"], 0, Some("Bob"), None)]
  {
    var d := ChatDoc("c1", ["A", "B"], Some("hi"), None, 0);
    InboxOfOne(LoopSnapshot, "A", d, BobStars, NoUsers);
    InboxOfOne(FirestoreDoc, "A", d, BobStars, NoUsers);
    assert OtherParticipant("A", d.participants) == Some("B") by {
      OtherParticipantIsFirst("A", d.participants, 1);
    }
    var bob := OtherProfile(Some("B"), BobStars, NoUsers);
    assert bob == Some(Profile(Some("Bob"), None, None));
    assert DisplayName(bob) == Some("Bob");
  }

  /** A single document with a last message gives a single line. */
  lemma InboxOfOne(b: DocBinding, uid: string, d: ChatDoc, stars: string -> Fetch, users: string -> Fetch)
    requires Eligible(d)
    ensures Inbox(b, uid, [d], stars, users) == [Summarize(b, uid, d, stars, users)]
  {
    assert [d][..0] == [];
    assert Lists.Filter([d], Eligible) == [d];
    assert Kept(uid, [d]) == [d];
  }

  /** The line kept for a conversation is its first document with a last message in query
    * order (the most recent one), and the lines come in the order of those first documents. */
  lemma InboxKeepsFirstDocument(uid: string, docs: seq<ChatDoc>)
    ensures var eligible := Lists.Filter(docs, Eligible);
      Kept(uid, docs) == Lists.FirstOccurrences(eligible, KeyFn(uid), |eligible|)
  {
    Lists.KeepFirstIsFirstOccurrences(Lists.Filter(docs, Eligible), KeyFn(uid));
  }

  // ---------------------------------------------------------------------------
  // The snapshot callback
  // ---------------------------------------------------------------------------

  lemma KeptStep(uid: string, docs: seq<ChatDoc>, i: nat)
    requires i < |docs|
    ensures Kept(uid, docs[..i + 1]) ==
      if Eligible(docs[i]) && DocKey(uid, docs[i]) !in Lists.KeySet(Kept(uid, docs[..i]), KeyFn(uid))
      then Kept(uid, docs[..i]) + [docs[i]]
      else Kept(uid, docs[..i])
  {
    var prefix := docs[..i + 1];
    assert prefix[..i] == docs[..i] && prefix[i] == docs[i];
    var f := Lists.Filter(docs[..i], Eligible);
    assert Lists.Filter(prefix, Eligible) == if Eligible(docs[i]) then f + [docs[i]] else f;
    if Eligible(docs[i]) {
      assert (f + [docs[i]])[..|f|] == f;
    }
  }

  /** The insertion-ordered map of the callback (`order` its keys in insertion order,
    * `entries` its contents) holds exactly one line per document of `kept`. */
  ghost predicate Mirrors(b: DocBinding, uid: string, order: seq<string>, entries: map<string, ChatEntry>, kept: seq<ChatDoc>,
                          stars: string -> Fetch, users: string -> Fetch)
  {
    && |order| == |kept|
    && entries.Keys == Lists.KeySet(kept, KeyFn(uid))
    && forall k :: 0 <= k < |order| ==>
         && order[k] == DocKey(uid, kept[k])
         && order[k] in entries
         && Eligible(kept[k])
         && entries[order[k]] == Summarize(b, uid, kept[k], stars, users)
  }

  lemma MirrorsInsert(b: DocBinding, uid: string, order: seq<string>, entries: map<string, ChatEntry>, kept: seq<ChatDoc>,
                      d: ChatDoc, stars: string -> Fetch, users: string -> Fetch)
    requires Mirrors(b, uid, order, entries, kept, stars, users)
    requires Eligible(d) && DocKey(uid, d) !in entries
    ensures Mirrors(b, uid, order + [DocKey(uid, d)], entries[DocKey(uid, d) := Summarize(b, uid, d, stars, users)],
                    kept + [d], stars, users)
  {
    var key := DocKey(uid, d);
    var order', entries', kept' := order + [key], entries[key := Summarize(b, uid, d, stars, users)], kept + [d];
    assert entries'.Keys == Lists.KeySet(kept', KeyFn(uid)) by {
      Lists.KeySetAppend(kept, d, KeyFn(uid));
      assert KeyFn(uid)(d) == key;
    }
    forall k | 0 <= k < |order'|
      ensures && order'[k] == DocKey(uid, kept'[k])
              && order'[k] in entries'
              && Eligible(kept'[k])
              && entries'[order'[k]] == Summarize(b, uid, kept'[k], stars, users)
    {
      MirrorsInsertLine(b, uid, order, entries, kept, d, stars, users, k);
    }
  }

  /** Line `k` of the map after the insertion: an earlier line is untouched, the last is new. */
  lemma MirrorsInsertLine(b: DocBinding, uid: string, order: seq<string>, entries: map<string, ChatEntry>, kept: seq<ChatDoc>,
                          d: ChatDoc, stars: string -> Fetch, users: string -> Fetch, k: nat)
    requires Mirrors(b, uid, order, entries, kept, stars, users)
    requires Eligible(d) && DocKey(uid, d) !in entries
    requires k <= |order|
    ensures var key := DocKey(uid, d);
      var order', entries', kept' := order + [key], entries[key := Summarize(b, uid, d, stars, users)], kept + [d];
      && order'[k] == DocKey(uid, kept'[k])
      && order'[k] in entries'
      && Eligible(kept'[k])
      && entries'[order'[k]] == Summarize(b, uid, kept'[k], stars, users)
  {
    if k < |order| {
      assert order[k] in entries;
    }
  }

  /** The loop of the snapshot callback: a `Map` filled in document order, `set` only when
    * the key is new, read back in insertion order. */
  method ListConversations(b: DocBinding, uid: string, docs: seq<ChatDoc>, stars: string -> Fetch, users: string -> Fetch)
    returns (chats: seq<ChatEntry>)
    ensures chats == Inbox(b, uid, docs, stars, users)
  {
    var order: seq<string> := [];
    var entries: map<string, ChatEntry> := map[];
    var i := 0;
    while i < |docs|
      invariant 0 <= i <= |docs|
      invariant Mirrors(b, uid, order, entries, Kept(uid, docs[..i]), stars, users)
    {
      KeptStep(uid, docs, i);
      var d := docs[i];
      if Eligible(d) {
        var key := ConversationKey(uid, OtherParticipant(uid, d.participants));
        if key !in entries {
          MirrorsInsert(b, uid, order, entries, Kept(uid, docs[..i]), d, stars, users);
          entries := entries[key := Summarize(b, uid, d, stars, users)];
          order := order + [key];
        }
      }
      i := i + 1;
    }
    assert docs[..i] == docs;
    chats := seq(|order|, k requires 0 <= k < |order| => entries[order[k]]);
  }

  // ---------------------------------------------------------------------------
  // The page
  // ---------------------------------------------------------------------------

  /** The state of the messages page. */
  class MessagesPage {
    var loading: bool
    var chats: seq<ChatEntry>
    /** The uid the inbox query is subscribed for, if any. */
    var subscription: Option<string>

    constructor ()
      ensures loading && chats == [] && subscription == None
    {
      loading := true;
      chats := [];
      subscription := None;
    }

    /** The effect run when the signed-in user is known: with nobody signed in it
      * only stops loading; otherwise it subscribes to that user's chats. */
    method Mount(user: Option<string>)
      modifies this
      ensures user.None? ==> !loading && subscription == old(subscription) && chats == old(chats)
      ensures user.Some? ==> subscription == user && loading == old(loading) && chats == old(chats)
    {
      if user.None? {
        loading := false;
        return;
      }
      subscription := user;
    }

    /** One delivery of the subscribed query, with the profile lookup bound as `b`. */
    method OnSnapshot(b: DocBinding, docs: seq<ChatDoc>, stars: string -> Fetch, users: string -> Fetch)
      requires subscription.Some?
      modifies this
      ensures !loading && subscription == old(subscription)
      ensures chats == Inbox(b, subscription.value, docs, stars, users)
    {
      chats := ListConversations(b, subscription.value, docs, stars, users);
      loading := false;
    }
  }
}
