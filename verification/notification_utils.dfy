/** The stored notification record and the sentences the app shows for it: the
    text in the notification list and the message of the pop-up toast. */
module NotificationUtils {
  import opened Js
  import opened Notifications

  /** The joined profile of whoever caused the notification. */
  datatype Actor = Actor(username: string, fullName: Option<string>, avatar: string)

  /** The columns of a `notifications` row besides id, type and read flag. */
  datatype Data = Data(
    userId: string, actorId: string,
    entityId: Option<string>, content: Option<string>, createdAt: string,
    actors: Option<Actor>)

  type Notification = Item<Data>

  const Anonymous := "Someone"

  /** `notification.actors?.full_name || 'Someone'`. */
  function ActorName(actors: Option<Actor>): (r: string)
    ensures r == Anonymous <==> actors.None? || actors.value.fullName.None?
                                || actors.value.fullName.value in {"", Anonymous}
    ensures r != Anonymous ==> actors.Some? && actors.value.fullName == Some(r)
  {
    if actors.None? then Anonymous else OrElse(actors.value.fullName, Anonymous)
  }

  /** What follows the actor's name in the list text for each type. */
  function Phrase(k: Kind): string {
    match k
    case Like => " liked your post"
    case Comment => " commented on your post"
    case Follow => " started following you"
    case Mention => " mentioned you in a post"
    case Tag => " tagged you in a post"
    case FriendRequest => " sent you a friend request"
    case GroupInvite => " invited you to join a group"
    case EventInvite => " invited you to an event"
    case PageInvite => " invited you to like a page"
    case Message => " sent you a message"
  }

  /** `formatNotificationText`. */
  function FormatText(n: Notification): (r: string)
    ensures IsPrefix(ActorName(n.payload.actors), r) && |r| > |ActorName(n.payload.actors)|
  {
    ActorName(n.payload.actors) + Phrase(n.kind)
  }

  /** The toast's message in `showNotificationToast`: the list text for five
      types, a generic sentence naming the actor for the other five. */
  function ToastMessage(n: Notification): (r: string)
    ensures n.kind in {Like, Comment, Follow, FriendRequest, Message} ==> r == FormatText(n)
    ensures n.kind !in {Like, Comment, Follow, FriendRequest, Message} ==>
              r == "You have a new notification from " + ActorName(n.payload.actors)
  {
    var actor := ActorName(n.payload.actors);
    match n.kind
    case Like => actor + " liked your post"
    case Comment => actor + " commented on your post"
    case Follow => actor + " started following you"
    case FriendRequest => actor + " sent you a friend request"
    case Message => actor + " sent you a message"
    case _ => "You have a new notification from " + actor
  }

  const ToastTitle := "New Notification"

  lemma PhrasesDistinct(a: Kind, b: Kind)
    ensures Phrase(a) == Phrase(b) <==> a == b
  {
  }

  lemma {:induction false} CancelPrefix(p: string, s: string, t: string)
    requires p + s == p + t
    ensures s == t
  {
    assert s == (p + s)[|p|..];
    assert t == (p + t)[|p|..];
  }

  /** Every sentence starts with the actor's name, and for one actor the ten
      types give ten different sentences. */
  lemma {:induction false} FormatTextShape(n: Notification, m: Notification)
    requires n.payload.actors == m.payload.actors
    ensures IsPrefix(ActorName(n.payload.actors), FormatText(n))
    ensures FormatText(n) == FormatText(m) <==> n.kind == m.kind
  {
    var a := ActorName(n.payload.actors);
    if FormatText(n) == FormatText(m) {
      CancelPrefix(a, Phrase(n.kind), Phrase(m.kind));
      PhrasesDistinct(n.kind, m.kind);
    }
    assert FormatText(n)[..|a|] == a;
  }

  /** The toast repeats the list text for likes, comments, follows, friend
      requests and messages, and for every other type names the actor in a
      generic sentence. */
  lemma ToastAgreesWithText(n: Notification)
    ensures n.kind in {Like, Comment, Follow, FriendRequest, Message} ==> ToastMessage(n) == FormatText(n)
    ensures n.kind !in {Like, Comment, Follow, FriendRequest, Message} ==>
              ToastMessage(n) == "You have a new notification from " + ActorName(n.payload.actors)
  {
  }
}
