/** The `sendPushNotification` handler: when a Notification document is
    created under `/User/{userID}/Notification/{notificationID}`, it builds a
    push message for the topic of that user, with a title and a body chosen
    by the notification's `type`, and hands it to the messaging service.

    This module models the construction of that message. The hand-off to the
    messaging service is the function's result. */
module SendPushNotification {
  import opened Wrappers
  import opened Strings

  // ---------------------------------------------------------------------
  // The Notification document
  // ---------------------------------------------------------------------

  /** The `type` field as the handler compares it with `===`: an integral
      number is `Int(n)`; anything else (a string such as "1", a boolean,
      null, a missing field, a fractional number) is `NonInteger`, which is
      strictly equal to none of 1..5. */
  datatype TypeValue = Int(n: int) | NonInteger

  /** The `community` sub-object: its display name and its document id. */
  datatype Community = Community(name: string, communityID: string)

  /** The `post` sub-object: the id of the post the notification is about. */
  datatype Post = Post(postID: string)

  /** The `triggeredBy` sub-object: the user whose action caused the notification. */
  datatype Actor = Actor(name: string)

  /** The data of a Notification document. `community` and `post` are always
      dereferenced by the handler, so they are mandatory here; `triggeredBy`
      is read only for the five known types. */
  datatype NotificationData = NotificationData(
    kind: TypeValue,
    community: Community,
    post: Post,
    triggeredBy: Option<Actor>)

  // ---------------------------------------------------------------------
  // The push message
  // ---------------------------------------------------------------------

  /** The `data` part of the message: everything the client app receives. */
  datatype MessageData = MessageData(title: string, body: string, communityID: string, postID: string)

  /** The message handed to the messaging service. */
  datatype Message = Message(data: MessageData, topic: string)

  /** A title and a body, as chosen by the notification type. */
  datatype Text = Text(title: string, body: string)

  // ---------------------------------------------------------------------
  // Fixed strings
  // ---------------------------------------------------------------------

  /** Every user's topic is this prefix followed by the user's id. */
  const TopicPrefix: string := "user_"

  /** The notification types that have a template of their own. */
  const CommentOnYourPost := 1
  const NewPostInCommunity := 2
  const ReplyToYourComment := 3
  const Announcement := 4
  const CommentOnFollowedPost := 5

  /** "Thông báo mới": the title kept for any other type. */
  const DefaultTitle: string := "Th\U{00F4}ng b\U{00E1}o m\U{1EDB}i"
  /** "Hãy kiểm tra thông báo mới của bạn.": the body kept for any other type. */
  const DefaultBody: string := "H\U{00E3}y ki\U{1EC3}m tra th\U{00F4}ng b\U{00E1}o m\U{1EDB}i c\U{1EE7}a b\U{1EA1}n."

  /** "Bình luận mới - ": title prefix of types 1, 3 and 5. */
  const CommentTitle: string := "B\U{00EC}nh lu\U{1EAD}n m\U{1EDB}i - "
  /** "Bài viết mới - ": title prefix of type 2. */
  const PostTitle: string := "B\U{00E0}i vi\U{1EBF}t m\U{1EDB}i - "
  /** "Thông báo mới - ": title prefix of type 4. */
  const AnnouncementTitle: string := "Th\U{00F4}ng b\U{00E1}o m\U{1EDB}i - "

  /** " đã bình luận vào bài viết của bạn.": body suffix of type 1. */
  const CommentOnYourPostBody: string :=
    " \U{0111}\U{00E3} b\U{00EC}nh lu\U{1EAD}n v\U{00E0}o b\U{00E0}i vi\U{1EBF}t c\U{1EE7}a b\U{1EA1}n."
  /** " đã tạo bài viết mới trong cộng đồng bạn quan tâm.": body suffix of type 2. */
  const NewPostBody: string :=
    " \U{0111}\U{00E3} t\U{1EA1}o b\U{00E0}i vi\U{1EBF}t m\U{1EDB}i trong c\U{1ED9}ng \U{0111}\U{1ED3}ng b\U{1EA1}n quan t\U{00E2}m."
  /** " đã trả lời bình luận của bạn.": body suffix of type 3. */
  const ReplyBody: string :=
    " \U{0111}\U{00E3} tr\U{1EA3} l\U{1EDD}i b\U{00EC}nh lu\U{1EAD}n c\U{1EE7}a b\U{1EA1}n."
  /** " đã tạo một thông báo mới.": body suffix of type 4. */
  const AnnouncementBody: string :=
    " \U{0111}\U{00E3} t\U{1EA1}o m\U{1ED9}t th\U{00F4}ng b\U{00E1}o m\U{1EDB}i."
  /** " đã bình luận vào bài viết bạn theo dõi.": body suffix of type 5. */
  const FollowedPostBody: string :=
    " \U{0111}\U{00E3} b\U{00EC}nh lu\U{1EAD}n v\U{00E0}o b\U{00E0}i vi\U{1EBF}t b\U{1EA1}n theo d\U{00F5}i."

  /** The type is strictly equal to one of 1..5, so a template applies. */
  predicate IsTemplated(kind: TypeValue) {
    kind.Int? && CommentOnYourPost <= kind.n <= CommentOnFollowedPost
  }


  /** One template: the type it belongs to, the text put before the
      community name in the title and the text put after the actor's name in
      the body. */
  datatype Template = Template(kind: int, titlePrefix: string, bodySuffix: string)

  const CommentOnYourPostTemplate := Template(CommentOnYourPost, CommentTitle, CommentOnYourPostBody)
  const NewPostTemplate := Template(NewPostInCommunity, PostTitle, NewPostBody)
  const ReplyTemplate := Template(ReplyToYourComment, CommentTitle, ReplyBody)
  const AnnouncementTemplate := Template(Announcement, AnnouncementTitle, AnnouncementBody)
  const FollowedPostTemplate := Template(CommentOnFollowedPost, CommentTitle, FollowedPostBody)

  /** The templates of types 1 to 5, in this order. */
  const Templates: seq<Template> :=
    [CommentOnYourPostTemplate, NewPostTemplate, ReplyTemplate, AnnouncementTemplate, FollowedPostTemplate]

  /** The text a template gives for a community name and an actor name. */
  function Fill(tpl: Template, communityName: string, actorName: string): Text {
    Text(tpl.titlePrefix + communityName, actorName + tpl.bodySuffix)
  }

  // ---------------------------------------------------------------------
  // The handler
  // ---------------------------------------------------------------------

  /** The topic the message is sent to, `user_{userID}`: the fixed prefix,
      then the user id unchanged. */
  function Topic(userID: string): (topic: string)
    ensures StartsWith(topic, TopicPrefix)
    ensures topic[|TopicPrefix|..] == userID
  {
    TopicPrefix + userID
  }

  /** The title and body for a notification type: a template that puts the
      community name at the end of the title and the actor's name at the
      start of the body for types 1..5, and the default strings for any other
      value. A templated title is always longer than the default title, so
      the default text is produced exactly when no template applies. */
  function Texts(kind: TypeValue, communityName: string, triggeredBy: Option<Actor>): (t: Text)
    requires IsTemplated(kind) ==> triggeredBy.Some?
    ensures !IsTemplated(kind) ==> t == Text(DefaultTitle, DefaultBody)
    ensures IsTemplated(kind) ==>
      EndsWith(t.title, communityName) && StartsWith(t.body, triggeredBy.value.name)
    ensures IsTemplated(kind) ==> |t.title| > |DefaultTitle|
  {
    if kind == Int(CommentOnYourPost) then
      Fill(CommentOnYourPostTemplate, communityName, triggeredBy.value.name)
    else if kind == Int(NewPostInCommunity) then
      Fill(NewPostTemplate, communityName, triggeredBy.value.name)
    else if kind == Int(ReplyToYourComment) then
      Fill(ReplyTemplate, communityName, triggeredBy.value.name)
    else if kind == Int(Announcement) then
      Fill(AnnouncementTemplate, communityName, triggeredBy.value.name)
    else if kind == Int(CommentOnFollowedPost) then
      Fill(FollowedPostTemplate, communityName, triggeredBy.value.name)
    else
      Text(DefaultTitle, DefaultBody)
  }

  /** The message built for a newly created Notification document of user
      `userID`; `None` when the document has no data, in which case nothing
      is sent. */
  function BuildPayload(notification: Option<NotificationData>, userID: string): (r: Option<Message>)
    requires notification.Some? && IsTemplated(notification.value.kind) ==>
      notification.value.triggeredBy.Some?
    ensures r.None? <==> notification.None?
    ensures r.Some? ==>
      StartsWith(r.value.topic, TopicPrefix) && r.value.topic[|TopicPrefix|..] == userID
    ensures r.Some? ==>
      && r.value.data.communityID == notification.value.community.communityID
      && r.value.data.postID == notification.value.post.postID
    ensures r.Some? ==>
      Text(r.value.data.title, r.value.data.body)
        == Texts(notification.value.kind, notification.value.community.name, notification.value.triggeredBy)
  {
    match notification
    case None => None
    case Some(n) =>
      var text := Texts(n.kind, n.community.name, n.triggeredBy);
      Some(Message(
        MessageData(text.title, text.body, n.community.communityID, n.post.postID),
        Topic(userID)))
  }

  // ---------------------------------------------------------------------
  // Reading a message back
  // ---------------------------------------------------------------------

  /** The user a topic belongs to, if it is a user topic. */
  function UserOfTopic(topic: string): Option<string> {
    if StartsWith(topic, TopicPrefix) then Some(topic[|TopicPrefix|..]) else None
  }

  /** Topic and UserOfTopic are inverse: every user's topic names that user,
      and a user topic is the topic of the user it names. */
  lemma TopicRoundTrip(userID: string, topic: string)
    ensures UserOfTopic(Topic(userID)) == Some(userID)
    ensures UserOfTopic(topic) == Some(userID) ==> Topic(userID) == topic
  {
  }

  /** What a templated title and body tell about the notification. */
  datatype Notice = Notice(kind: int, communityName: string, actorName: string)

  /** Reads a text back with one template: the community name is what
      follows the title prefix and the actor name what precedes the body
      suffix; `None` when the text does not have that template's form. */
  function Match(t: Text, tpl: Template): Option<Notice> {
    if StartsWith(t.title, tpl.titlePrefix) && EndsWith(t.body, tpl.bodySuffix) then
      Some(Notice(tpl.kind, t.title[|tpl.titlePrefix|..], t.body[..|t.body| - |tpl.bodySuffix|]))
    else
      None
  }

  /** The first of `tpls` whose form the text has, read back with it. */
  function FirstMatch(t: Text, tpls: seq<Template>): Option<Notice>
    decreases |tpls|
  {
    if tpls == [] then None
    else if Match(t, tpls[0]).Some? then Match(t, tpls[0])
    else FirstMatch(t, tpls[1..])
  }

  /** Recovers the type, community name and actor name from a title and a
      body built by a template, trying the templates of types 1 to 5 in
      turn; `None` for any other text. */
  function Recognize(t: Text): Option<Notice> {
    FirstMatch(t, Templates)
  }

  /** A template reads back the names it was filled with. */
  lemma MatchFill(tpl: Template, communityName: string, actorName: string)
    ensures Match(Fill(tpl, communityName, actorName), tpl) == Some(Notice(tpl.kind, communityName, actorName))
  {
  }

  /** Two templates are told apart by their title prefixes or by their body
      suffixes. */
  predicate Distinguishable(tpl: Template, other: Template) {
    NoPrefixOfOther(tpl.titlePrefix, other.titlePrefix) || NoSuffixOfOther(tpl.bodySuffix, other.bodySuffix)
  }

  /** A text filled by one template does not have the form of a template
      that can be told apart from it. */
  lemma MatchOther(tpl: Template, other: Template, communityName: string, actorName: string)
    requires Distinguishable(tpl, other)
    ensures Match(Fill(tpl, communityName, actorName), other).None?
  {
  }

  /** Whatever a template reads back from a text fills that template to
      exactly the same text. */
  lemma MatchSound(t: Text, tpl: Template)
    ensures Match(t, tpl).Some? ==>
      && Match(t, tpl).value.kind == tpl.kind
      && Fill(tpl, Match(t, tpl).value.communityName, Match(t, tpl).value.actorName) == t
  {
  }

  /** A text filled by one of `tpls` is read back by the first-match
      search with that template, provided every template before it can be
      told apart from it. */
  lemma {:induction false} FirstMatchFill(tpls: seq<Template>, i: nat, communityName: string, actorName: string)
    requires i < |tpls|
    requires forall j :: 0 <= j < i ==> Distinguishable(tpls[i], tpls[j])
    ensures FirstMatch(Fill(tpls[i], communityName, actorName), tpls)
      == Some(Notice(tpls[i].kind, communityName, actorName))
    decreases i
  {
    if i == 0 {
      MatchFill(tpls[0], communityName, actorName);
    } else {
      MatchOther(tpls[i], tpls[0], communityName, actorName);
      var rest := tpls[1..];
      assert rest[i - 1] == tpls[i];
      forall j | 0 <= j < i - 1 ensures Distinguishable(rest[i - 1], rest[j]) {
        assert rest[j] == tpls[j + 1];
      }
      FirstMatchFill(rest, i - 1, communityName, actorName);
    }
  }

  /** Whatever the first-match search reads back comes from one of `tpls`,
      which it fills to exactly the same text. */
  lemma {:induction false} FirstMatchSound(t: Text, tpls: seq<Template>)
    ensures FirstMatch(t, tpls).Some? ==>
      exists tpl :: tpl in tpls && tpl.kind == FirstMatch(t, tpls).value.kind
        && Fill(tpl, FirstMatch(t, tpls).value.communityName, FirstMatch(t, tpls).value.actorName) == t
    decreases |tpls|
  {
    if tpls != [] {
      MatchSound(t, tpls[0]);
      if Match(t, tpls[0]).None? {
        FirstMatchSound(t, tpls[1..]);
        if FirstMatch(t, tpls[1..]).Some? {
          var n := FirstMatch(t, tpls[1..]).value;
          var tpl :| tpl in tpls[1..] && tpl.kind == n.kind && Fill(tpl, n.communityName, n.actorName) == t;
          assert tpl in tpls;
        }
      }
    }
  }

  /** The three title prefixes differ within their common length, and so do
      the body suffixes of the three types that share a title (each pair in
      the order the templates are compared). */
  lemma FragmentsDistinct()
    ensures NoPrefixOfOther(PostTitle, CommentTitle) && NoPrefixOfOther(CommentTitle, PostTitle)
    ensures NoPrefixOfOther(AnnouncementTitle, CommentTitle) && NoPrefixOfOther(CommentTitle, AnnouncementTitle)
    ensures NoPrefixOfOther(AnnouncementTitle, PostTitle)
    ensures NoSuffixOfOther(ReplyBody, CommentOnYourPostBody)
    ensures NoSuffixOfOther(FollowedPostBody, CommentOnYourPostBody)
    ensures NoSuffixOfOther(FollowedPostBody, ReplyBody)
  {
    assert DifferAt(PostTitle, CommentTitle, 1) && DifferAt(CommentTitle, PostTitle, 1);
    assert DifferAt(AnnouncementTitle, CommentTitle, 0) && DifferAt(CommentTitle, AnnouncementTitle, 0);
    assert DifferAt(AnnouncementTitle, PostTitle, 0);
    assert DifferAtFromEnd(ReplyBody, CommentOnYourPostBody, 11);
    assert DifferAtFromEnd(FollowedPostBody, CommentOnYourPostBody, 2);
    assert DifferAtFromEnd(FollowedPostBody, ReplyBody, 2);
  }

  /** Every template can be told apart from each one before it. */
  lemma TemplatesDistinguishable()
    ensures forall i, j :: 0 <= j < i < |Templates| ==> Distinguishable(Templates[i], Templates[j])
  {
    PairsDistinguishable();
  }

  /** The ten pairs of templates, one by one. */
  lemma PairsDistinguishable()
    ensures Distinguishable(NewPostTemplate, CommentOnYourPostTemplate)
    ensures Distinguishable(ReplyTemplate, CommentOnYourPostTemplate)
    ensures Distinguishable(ReplyTemplate, NewPostTemplate)
    ensures Distinguishable(AnnouncementTemplate, CommentOnYourPostTemplate)
    ensures Distinguishable(AnnouncementTemplate, NewPostTemplate)
    ensures Distinguishable(AnnouncementTemplate, ReplyTemplate)
    ensures Distinguishable(FollowedPostTemplate, CommentOnYourPostTemplate)
    ensures Distinguishable(FollowedPostTemplate, NewPostTemplate)
    ensures Distinguishable(FollowedPostTemplate, ReplyTemplate)
    ensures Distinguishable(FollowedPostTemplate, AnnouncementTemplate)
  {
    FragmentsDistinct();
  }

  /** The template Texts uses for a templated type is the type's entry in
      Templates. */
  lemma TextsUsesTemplates(kind: TypeValue, communityName: string, actorName: string)
    requires IsTemplated(kind)
    ensures Templates[kind.n - 1].kind == kind.n
    ensures Texts(kind, communityName, Some(Actor(actorName))) == Fill(Templates[kind.n - 1], communityName, actorName)
  {
  }

  /** Reading back the text of a templated notification gives its type, its
      community name and its actor name. */
  lemma RecognizeTexts(kind: TypeValue, communityName: string, actorName: string)
    requires IsTemplated(kind)
    ensures Recognize(Texts(kind, communityName, Some(Actor(actorName))))
      == Some(Notice(kind.n, communityName, actorName))
  {
    TemplatesDistinguishable();
    TextsUsesTemplates(kind, communityName, actorName);
    FirstMatchFill(Templates, kind.n - 1, communityName, actorName);
  }

  /** Whatever Recognize accepts is exactly the text of a templated
      notification with the type and names it reports. */
  lemma RecognizeSound(t: Text)
    ensures Recognize(t).Some? ==>
      var n := Recognize(t).value;
      && CommentOnYourPost <= n.kind <= CommentOnFollowedPost
      && Texts(Int(n.kind), n.communityName, Some(Actor(n.actorName))) == t
  {
    FirstMatchSound(t, Templates);
    if Recognize(t).Some? {
      var n := Recognize(t).value;
      var tpl :| tpl in Templates && tpl.kind == n.kind && Fill(tpl, n.communityName, n.actorName) == t;
      TextsUsesTemplates(Int(n.kind), n.communityName, n.actorName);
    }
  }

  /** The first-match search finds nothing in a text that has the form of
      none of `tpls`. */
  lemma {:induction false} FirstMatchNone(t: Text, tpls: seq<Template>)
    requires forall i :: 0 <= i < |tpls| ==> Match(t, tpls[i]).None?
    ensures FirstMatch(t, tpls).None?
    decreases |tpls|
  {
    if tpls != [] {
      assert Match(t, tpls[0]).None?;
      FirstMatchNone(t, tpls[1..]);
    }
  }

  /** The default text is never recognised as a templated one: the default
      title is shorter than every title prefix. */
  lemma RecognizeDefault()
    ensures Recognize(Text(DefaultTitle, DefaultBody)).None?
  {
    FirstMatchNone(Text(DefaultTitle, DefaultBody), Templates);
  }

  /** Exactly one template applies to a type, and different templated
      notifications never produce the same title and body: the text
      determines the type, the community name and the actor name. */
  lemma TextsInjective(k1: TypeValue, c1: string, a1: string, k2: TypeValue, c2: string, a2: string)
    requires IsTemplated(k1) && IsTemplated(k2)
    requires Texts(k1, c1, Some(Actor(a1))) == Texts(k2, c2, Some(Actor(a2)))
    ensures k1 == k2 && c1 == c2 && a1 == a2
  {
    RecognizeTexts(k1, c1, a1);
    RecognizeTexts(k2, c2, a2);
  }

  /** Types 1, 3 and 5 share the title "Bình luận mới - " followed by the
      community name and differ pairwise in their bodies; the titles of types
      2 and 4 differ from it and from each other. */
  lemma SharedAndDistinctTemplates(communityName: string, actorName: string)
    ensures
      var triggeredBy := Some(Actor(actorName));
      var t1 := Texts(Int(CommentOnYourPost), communityName, triggeredBy);
      var t2 := Texts(Int(NewPostInCommunity), communityName, triggeredBy);
      var t3 := Texts(Int(ReplyToYourComment), communityName, triggeredBy);
      var t4 := Texts(Int(Announcement), communityName, triggeredBy);
      var t5 := Texts(Int(CommentOnFollowedPost), communityName, triggeredBy);
      && t1.title == t3.title == t5.title == CommentTitle + communityName
      && t1.body != t3.body && t1.body != t5.body && t3.body != t5.body
      && t2.title != t1.title && t4.title != t1.title && t2.title != t4.title
  {
    var c, a := communityName, actorName;
    forall k1, k2 | CommentOnYourPost <= k1 < k2 <= CommentOnFollowedPost
      ensures Texts(Int(k1), c, Some(Actor(a))) != Texts(Int(k2), c, Some(Actor(a)))
    {
      if Texts(Int(k1), c, Some(Actor(a))) == Texts(Int(k2), c, Some(Actor(a))) {
        TextsInjective(Int(k1), c, a, Int(k2), c, a);
      }
    }
  }

  /** Type 3, a reply to the user's comment: the title is "Bình luận mới - "
      followed by the community name and the body is the actor's name
      followed by " đã trả lời bình luận của bạn.". */
  lemma ReplyNotificationText(communityName: string, actorName: string)
    ensures Texts(Int(ReplyToYourComment), communityName, Some(Actor(actorName)))
      == Text(CommentTitle + communityName, actorName + ReplyBody)
  {
  }

  /** End to end: the message built for a Notification document is addressed
      to exactly its user, carries the document's community and post ids, and
      its text reads back as the document's type, community name and actor
      name when a template applies, and as no template otherwise. */
  lemma PayloadReadsBack(n: NotificationData, userID: string)
    requires IsTemplated(n.kind) ==> n.triggeredBy.Some?
    ensures
      var m := BuildPayload(Some(n), userID).value;
      && UserOfTopic(m.topic) == Some(userID)
      && m.data.communityID == n.community.communityID
      && m.data.postID == n.post.postID
      && Recognize(Text(m.data.title, m.data.body))
        == if IsTemplated(n.kind) then Some(Notice(n.kind.n, n.community.name, n.triggeredBy.value.name))
           else None
  {
    TopicRoundTrip(userID, Topic(userID));
    if IsTemplated(n.kind) {
      RecognizeTexts(n.kind, n.community.name, n.triggeredBy.value.name);
    } else {
      RecognizeDefault();
    }
  }
}
