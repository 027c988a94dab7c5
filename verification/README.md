# Push-notification payload of EduForum's Cloud Functions

EduForum's Cloud Functions react to writes in the forum's Firestore database
(communities, posts, comments, users, notifications). Almost all of
`functions/src/index.ts` binds handlers from other modules to database
triggers and callable endpoints. The one piece of logic written in that file
is the `sendPushNotification` handler. It runs when a Notification document
is created under `/User/{userID}/Notification/{notificationID}` and turns the
document into a push message for the topic `user_{userID}`.

This project models that handler as pure functions over values, in module
`SendPushNotification` (`push_notification.dfy`):

- `BuildPayload` takes the document's data, or `None` when the snapshot has
  no data, and the `userID` path parameter. It returns the message handed to
  the messaging service, or `None` when nothing is sent.
- `Texts` is the handler's `if` / `else if` chain. The `type` field is
  compared with strict equality. Types 1 to 5 each use their own template,
  which puts the community name at the end of the title and the actor's name
  at the start of the body. Any other value keeps the default title
  "Thông báo mới" and the default body "Hãy kiểm tra thông báo mới của bạn.".
- `Topic` builds `user_{userID}`.

Every template is written as a named constant. `TypeValue` says how `type`
is read. An integral number is `Int(n)`. A string such as `"1"`, a boolean,
null, a missing field or a fractional number is `NonInteger`, which is
strictly equal to none of 1..5.

As partners for these functions, the project defines readers that undo them:

- `UserOfTopic` recovers the user from a topic.
- `Recognize` tries the templates of types 1 to 5 in order. For each one it
  checks the title prefix and the body suffix. It then recovers the type,
  the community name and the actor name.

Lemmas prove that these readers are exact inverses on what the handler
produces. From that it follows that the five templates never collide, and
that none of them ever produces the default text.

`strings.dfy` (module `Strings`) holds prefix and suffix facts about strings.
`wrappers.dfy` (module `Wrappers`) holds the `Option` type.

## Model

| member | source | states |
|---|---|---|
| `SendPushNotification.BuildPayload` | functions/src/index.ts:90-134 | No message exactly when the snapshot has no data. Otherwise the topic is "user_" followed by the unchanged userID. `communityID` and `postID` are copied from the document's `community` and `post`, whatever the type. Title and body depend only on `type`, `community.name` and `triggeredBy`. |
| `SendPushNotification.Topic` | functions/src/index.ts:96-97 | The topic starts with "user_", and what follows is exactly the userID. |
| `SendPushNotification.Texts` | functions/src/index.ts:99-116 | A type not strictly equal to 1..5 gives exactly the default title and body. A type 1..5 gives a title ending with the community name and a body starting with the actor's name. Such a title is longer than the default title, so a templated type never yields the default text. |
| `SendPushNotification.TopicRoundTrip` | functions/src/index.ts:96-97 | `UserOfTopic` inverts `Topic` in both directions, so each user's topic names that user and no one else. |
| `SendPushNotification.FragmentsDistinct` | functions/src/index.ts:101-115 | The three title prefixes are not prefixes of one another. The bodies of types 1, 3 and 5 are not suffixes of one another. |
| `SendPushNotification.TemplatesDistinguishable` | functions/src/index.ts:101-115 | Each of the five templates can be told apart from every earlier one, by its title prefix or by its body suffix. |
| `SendPushNotification.RecognizeTexts` | functions/src/index.ts:101-116 | Reading back the title and body of a type 1..5 gives back that type, the community name and the actor name. |
| `SendPushNotification.RecognizeSound` | functions/src/index.ts:101-116 | Whatever `Recognize` accepts has a type in 1..5, and `Texts` produces exactly that text for the type and names it reports. |
| `SendPushNotification.RecognizeDefault` | functions/src/index.ts:99-100 | The default title and body are recognised as no template. |
| `SendPushNotification.TextsInjective` | functions/src/index.ts:101-116 | Exactly one branch applies: two types 1..5 with the same title and body have the same type, community name and actor name. |
| `SendPushNotification.SharedAndDistinctTemplates` | functions/src/index.ts:101-115 | Types 1, 3 and 5 share the title "Bình luận mới - " followed by the community name, and their bodies are pairwise different. The titles of types 2 ("Bài viết mới - ") and 4 ("Thông báo mới - ") differ from that title and from each other. |
| `SendPushNotification.ReplyNotificationText` | functions/src/index.ts:107-109 | Type 3 gives the title "Bình luận mới - " followed by the community name, and the body made of the actor's name followed by " đã trả lời bình luận của bạn.". |
| `SendPushNotification.PayloadReadsBack` | functions/src/index.ts:126-133 | End to end, for a document with data: the topic addresses exactly the given user, and the ids are copied. The text reads back as the document's type and names when a template applies, and as no template otherwise. |
| `SendPushNotification.FirstMatchFill` | functions/src/index.ts:101-116 | For any list of templates, text filled by one of them is read back with that template. This holds when every earlier template can be told apart from it. |
| `SendPushNotification.FirstMatchSound` | functions/src/index.ts:101-116 | For any list of templates, whatever the first-match search reads back comes from a template in the list that fills to exactly the same text. |

## Left out

- The `getMessaging().send(payload)` call and its success and failure logging (functions/src/index.ts:135-143). This is a call to an external service. The model stops at the message that would be handed over.
- The `console.log` on a snapshot without data (functions/src/index.ts:93). It is logging only. Nothing is sent in that case, and the model returns `None`.
- A document that has data but lacks `community` or `post` makes the handler fail with a JavaScript dereference error. The model makes those two fields mandatory instead.
- `triggeredBy` is optional, because the handler reads it only for types 1..5. `Texts` and `BuildPayload` require it for those types, where the source would fail without it.
- `SendPushNotification.Texts`: it does not model JavaScript's string conversion of names that are not strings. A missing name, for example, becomes "undefined". Names are strings here.
- Only `triggeredBy.name` is modelled. The handler reads no other field of `triggeredBy`.
- Event delivery (at-least-once, concurrent invocations) and the Firestore store itself. The handler has no state of its own.
- The trigger and callable registrations (functions/src/index.ts:53-85, 147-240). They are wiring, with no behaviour of their own.
- The commented-out payload shape (functions/src/index.ts:118-125) and the disabled triggers. They are not part of the running code.
- The imported handlers are not part of this model, because their source is not available (functions/src/index.ts:6-48). These are cascading deletion of comments and votes, counter maintenance, notification creation, timestamps, community setup, profile propagation, member approval and the callable HTTP handlers.
