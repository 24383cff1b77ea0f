/** The chat screen: a contact list with unread badges, the open
    conversation and the message box. The message id (`Date.now()`) and the
    displayed clock time are parameters. */
module ChatInterface {
  import opened Js

  datatype Contact = Contact(
    id: string, name: string, avatar: string, lastMessage: string,
    timestamp: string, unread: int, isOnline: bool)

  datatype Sender = Me | Other

  datatype Message = Message(id: string, content: string, sender: Sender, timestamp: string)

  datatype Chat = Chat(contacts: seq<Contact>, active: string, messages: seq<Message>, draft: string)

  /** The contacts with `f` applied to those carrying the id. */
  function MapId(cs: seq<Contact>, id: string, f: Contact -> Contact): seq<Contact> {
    MapWhere(cs, (c: Contact) => c.id == id, f)
  }

  function Sent(text: string): Contact -> Contact {
    (c: Contact) => c.(lastMessage := text, timestamp := "Just now", unread := 0)
  }

  function ReadAll(c: Contact): Contact {
    c.(unread := 0)
  }

  /** `handleSendMessage`: a blank draft does nothing. Otherwise one message
      from `me` with the draft as typed (not trimmed) is appended, the box is
      cleared, and the open contact shows it as its last message, `Just now`,
      with no unread messages. */
  function Send(c: Chat, now: string, clock: string): (r: Chat)
    ensures IsBlank(c.draft) ==> r == c
    ensures !IsBlank(c.draft) ==>
              && r.messages == c.messages + [Message(now, c.draft, Me, clock)]
              && r.draft == "" && r.active == c.active
              && |r.contacts| == |c.contacts|
              && (forall i :: 0 <= i < |c.contacts| && c.contacts[i].id != c.active ==> r.contacts[i] == c.contacts[i])
              && (forall i :: 0 <= i < |c.contacts| && c.contacts[i].id == c.active ==>
                    r.contacts[i] == c.contacts[i].(lastMessage := c.draft, timestamp := "Just now", unread := 0))
  {
    if IsBlank(c.draft) then c
    else Chat(MapId(c.contacts, c.active, Sent(c.draft)), c.active, c.messages + [Message(now, c.draft, Me, clock)], "")
  }

  /** `handleContactClick`: the contact becomes the open one and its unread
      count goes to 0; nothing else changes. */
  function Click(c: Chat, id: string): (r: Chat)
    ensures r.active == id && r.messages == c.messages && r.draft == c.draft
    ensures |r.contacts| == |c.contacts|
    ensures forall i :: 0 <= i < |c.contacts| ==>
              r.contacts[i] == if c.contacts[i].id == id then c.contacts[i].(unread := 0) else c.contacts[i]
  {
    c.(active := id, contacts := MapId(c.contacts, id, ReadAll))
  }

  /** The send button is enabled exactly when the draft holds a character
      that is not white space. */
  function SendEnabled(c: Chat): (b: bool)
    ensures b <==> exists i :: 0 <= i < |c.draft| && !IsSpace(c.draft[i])
  {
    BlankIffAllSpace(c.draft);
    !IsBlank(c.draft)
  }

  datatype Event = Type(text: string) | SendPressed(now: string, clock: string) | ContactClicked(id: string)

  function Step(c: Chat, e: Event): Chat {
    match e
    case Type(t) => c.(draft := t)
    case SendPressed(now, clock) => Send(c, now, clock)
    case ContactClicked(id) => Click(c, id)
  }

  function Run(c: Chat, es: seq<Event>): Chat
    decreases |es|
  {
    if |es| == 0 then c else Run(Step(c, es[0]), es[1..])
  }

  /** `b` has the contacts of `a` in the same places, each with an unread
      count no higher than before, and the messages of `a` as a prefix. */
  predicate Settled(a: Chat, b: Chat) {
    && |b.contacts| == |a.contacts|
    && (forall i :: 0 <= i < |a.contacts| ==> b.contacts[i].id == a.contacts[i].id && b.contacts[i].name == a.contacts[i].name)
    && (forall i :: 0 <= i < |a.contacts| ==> b.contacts[i].unread == a.contacts[i].unread || b.contacts[i].unread == 0)
    && |a.messages| <= |b.messages| && b.messages[..|a.messages|] == a.messages
  }

  lemma SettledTrans(a: Chat, b: Chat, c: Chat)
    requires Settled(a, b) && Settled(b, c)
    ensures Settled(a, c)
  {
    assert c.messages[..|a.messages|] == c.messages[..|b.messages|][..|a.messages|];
  }

  /** Sending settles the chat: it appends at most one message and only
      clears the open contact's badge. */
  lemma SendSettles(c: Chat, now: string, clock: string)
    ensures Settled(c, Send(c, now, clock))
  {
    var c1 := Send(c, now, clock);
    if IsBlank(c.draft) {
      assert c1 == c;
      assert c1.messages[..|c.messages|] == c.messages;
    } else {
      assert c1.messages[..|c.messages|] == c.messages;
    }
  }

  /** One event settles the chat. */
  lemma StepSettles(c: Chat, e: Event)
    ensures Settled(c, Step(c, e))
  {
    var c1 := Step(c, e);
    match e
    case Type(t) =>
      assert c1.messages[..|c.messages|] == c.messages;
    case SendPressed(now, clock) =>
      SendSettles(c, now, clock);
    case ContactClicked(id) =>
      assert c1.messages[..|c.messages|] == c.messages;
  }

  /** Over any run of typing, sending and clicking, the contact list keeps its
      length, order and names, badges only ever go to zero, and messages are
      only ever appended. */
  lemma {:induction false} RunSettles(c: Chat, es: seq<Event>)
    ensures Settled(c, Run(c, es))
    decreases |es|
  {
    if |es| == 0 {
      assert c.messages[..|c.messages|] == c.messages;
    } else {
      var c1 := Step(c, es[0]);
      StepSettles(c, es[0]);
      RunSettles(c1, es[1..]);
      SettledTrans(c, c1, Run(c1, es[1..]));
    }
  }
}
