/**
 * The MSN-style chat simulator: a contact list and one floating chat window
 * per open contact. Windows are deduplicated by contact id, each new or
 * focused window gets the next value of a z-order counter that only grows,
 * each open window has a draft, and an online contact answers a sent message
 * through a "typing" timer of which at most one is pending per contact.
 *
 * Timers are explicit: `typingTimeouts` is the component's ref map from
 * contact id to the handle last scheduled for it, `pending` holds the timers
 * still armed (handle to contact id), and `Fire` is the timer callback.
 * Message ids, timestamps and the random reply are parameters.
 */
module MsnChatSimulator {
  import opened Basics
  import opened Text

  datatype Status = Online | Away | Offline

  datatype Contact = Contact(id: int, name: String, avatar: String, status: Status)

  datatype Message = Message(id: int, author: String, text: String, timestamp: String, avatar: String, isUser: bool)

  datatype ChatWindow = ChatWindow(contact: Contact, messages: seq<Message>, isTyping: bool, zIndex: int)

  const InitialZIndex := 1000

  const DemoResponses: seq<String> := [
    "Oi! Tudo bem? \U{1F60A}",
    "Que legal esse Orkut 2.0!",
    "As janelas flutuantes são nostálgicas demais! \U{1FA9F}",
    "Lembra quando a gente ficava horas no MSN?",
    "Saudades dos emoticons clássicos! :P",
    "Vou compartilhar isso com todo mundo!",
    "Ficou igual ao MSN original! \U{1F49C}",
    "Que nostalgia boa! \U{1F60D}",
    "Parabéns pelo projeto!",
    "Quando vai ter os nudges? \U{1F602}"
  ]

  const UserAvatar: String := "\U{1F464}"

  /** The fixed contact list of the component. */
  const Contacts: seq<Contact> := [
    Contact(1, "João Silva", "\U{1F468}\U{200D}\U{1F4BB}", Online),
    Contact(2, "Maria Santos", "\U{1F469}\U{200D}\U{1F3A8}", Online),
    Contact(3, "Pedro Costa", "\U{1F468}\U{200D}\U{1F4BC}", Away),
    Contact(4, "Ana Lima", "\U{1F469}\U{200D}\U{1F4BB}", Online),
    Contact(5, "Carlos Mendes", "\U{1F468}\U{200D}\U{1F527}", Away),
    Contact(6, "Juliana Rocha", "\U{1F469}\U{200D}\U{2695}\U{FE0F}", Offline)
  ]

  /** The first message of a new window depends on whether the contact is online. */
  function Greeting(status: Status): String
  {
    if status == Online then "Oi! Tudo bem?" else "Oi! Acabei de voltar!"
  }

  function Others(id: int): ChatWindow -> bool
  {
    (c: ChatWindow) => c.contact.id != id
  }

  /** The per-window updates the handlers apply with `chat.contact.id === id ? {...chat, …} : chat`. */
  datatype Update =
    | Raise(z: int)          // bringToFront
    | StartTyping            // simulateTyping
    | Post(m: Message)       // handleSendMessage
    | Answer(reply: Message) // the typing timer

  function Apply(c: ChatWindow, u: Update): ChatWindow
  {
    match u
    case Raise(z) => c.(zIndex := z)
    case StartTyping => c.(isTyping := true)
    case Post(m) => c.(messages := c.messages + [m])
    case Answer(m) => c.(messages := c.messages + [m], isTyping := false)
  }

  /** The contact ids of the open windows, in window order. */
  function Ids(chats: seq<ChatWindow>): (ids: seq<int>)
    ensures |ids| == |chats| && forall i :: 0 <= i < |chats| ==> ids[i] == chats[i].contact.id
  {
    seq(|chats|, i requires 0 <= i < |chats| => chats[i].contact.id)
  }

  /** The z-indices of the open windows, in window order. */
  function ZIndices(chats: seq<ChatWindow>): (zs: seq<int>)
    ensures |zs| == |chats| && forall i :: 0 <= i < |chats| ==> zs[i] == chats[i].zIndex
  {
    seq(|chats|, i requires 0 <= i < |chats| => chats[i].zIndex)
  }

  /** Apply u to the window of contact id, if any, and leave every other window as it is. */
  function Updated(chats: seq<ChatWindow>, id: int, u: Update): (r: seq<ChatWindow>)
    ensures |r| == |chats| && Ids(r) == Ids(chats)
    ensures forall i :: 0 <= i < |chats| ==> r[i] == if chats[i].contact.id == id then Apply(chats[i], u) else chats[i]
    ensures !u.Raise? ==> ZIndices(r) == ZIndices(chats)
  {
    var r := seq(|chats|, i requires 0 <= i < |chats| => if chats[i].contact.id == id then Apply(chats[i], u) else chats[i]);
    assert Ids(r) == Ids(chats);
    assert !u.Raise? ==> ZIndices(r) == ZIndices(chats);
    r
  }

  predicate IsOpen(chats: seq<ChatWindow>, id: int)
  {
    id in Ids(chats)
  }

  /** Every window's z-index was handed out by the counter, and no two windows share one. */
  predicate ZOrder(zs: seq<int>, maxZIndex: int)
  {
    (forall z :: z in zs ==> InitialZIndex < z <= maxZIndex) && Distinct(zs)
  }

  /**
   * The timer bookkeeping: an armed timer belongs to an open window and is the
   * handle the ref map holds for that contact, and every handle ever issued is
   * below `nextHandle` (handles start at 1, as browser timer ids do).
   */
  predicate TimersConsistent(ids: seq<int>, typingTimeouts: map<int, nat>, pending: map<nat, int>, nextHandle: nat)
  {
    nextHandle >= 1
    && (forall h :: h in pending ==> pending[h] in ids && pending[h] in typingTimeouts && typingTimeouts[pending[h]] == h)
    && (forall c :: c in typingTimeouts ==> 1 <= typingTimeouts[c] < nextHandle)
  }

  /** With ids unique, `handleCloseChat`'s filter removes exactly the window of that contact and keeps the others in order. */
  lemma CloseRemovesThatWindow(chats: seq<ChatWindow>, k: nat)
    requires Distinct(Ids(chats)) && k < |chats|
    ensures Filter(chats, Others(chats[k].contact.id)) == chats[..k] + chats[k + 1..]
  {
    var id := chats[k].contact.id;
    forall i | 0 <= i < |chats| && i != k ensures Others(id)(chats[i]) {
      assert Ids(chats)[i] != Ids(chats)[k];
    }
    FilterDropsOne(chats, Others(id), k);
  }

  /** Closing a contact that has no window changes nothing. */
  lemma CloseAbsentIsNoOp(chats: seq<ChatWindow>, id: int)
    requires !IsOpen(chats, id)
    ensures Filter(chats, Others(id)) == chats
  {
    forall i | 0 <= i < |chats| ensures Others(id)(chats[i]) {
      assert Ids(chats)[i] in Ids(chats);
    }
    FilterKeepsAll(chats, Others(id));
  }

  /** Removing one window removes exactly its id and its z-index, and keeps both lists free of repeats. */
  lemma RemoveWindow(chats: seq<ChatWindow>, k: nat)
    requires k < |chats| && Distinct(Ids(chats)) && Distinct(ZIndices(chats))
    ensures var r := chats[..k] + chats[k + 1..];
      Ids(r) == Ids(chats)[..k] + Ids(chats)[k + 1..]
      && ZIndices(r) == ZIndices(chats)[..k] + ZIndices(chats)[k + 1..]
      && Distinct(Ids(r)) && Distinct(ZIndices(r))
      && (forall x :: x in Ids(r) <==> x in Ids(chats) && x != chats[k].contact.id)
      && (forall z :: z in ZIndices(r) ==> z in ZIndices(chats))
  {
    var r := chats[..k] + chats[k + 1..];
    assert Ids(r) == Ids(chats)[..k] + Ids(chats)[k + 1..];
    assert ZIndices(r) == ZIndices(chats)[..k] + ZIndices(chats)[k + 1..];
    DistinctRemoveAt(Ids(chats), k);
    DistinctRemoveAt(ZIndices(chats), k);
  }

  /** A focused window is raised above every other window, and z-indices stay distinct and in range. */
  lemma RaiseKeepsZOrder(chats: seq<ChatWindow>, maxZIndex: int, id: int)
    requires Distinct(Ids(chats)) && ZOrder(ZIndices(chats), maxZIndex)
    ensures var r := Updated(chats, id, Raise(maxZIndex + 1));
      Ids(r) == Ids(chats)
      && ZOrder(ZIndices(r), maxZIndex + 1)
      && forall i, j :: 0 <= i < |r| && 0 <= j < |r| && r[i].contact.id == id && j != i ==> r[j].zIndex < r[i].zIndex
  {
    var r := Updated(chats, id, Raise(maxZIndex + 1));
    assert Ids(r) == Ids(chats);
    var zs, zr := ZIndices(chats), ZIndices(r);
    forall i, j | 0 <= i < j < |r| ensures zr[i] != zr[j] {
      if chats[i].contact.id == id {
        assert chats[j].contact.id != id by { assert Ids(chats)[i] != Ids(chats)[j]; }
        assert zs[j] in zs;
      } else if chats[j].contact.id == id {
        assert zs[i] in zs;
      } else {
        assert zs[i] != zs[j];
      }
    }
    forall z | z in zr ensures InitialZIndex < z <= maxZIndex + 1 {
      var i :| 0 <= i < |zr| && zr[i] == z;
      assert zs[i] in zs;
    }
    forall i, j | 0 <= i < |r| && 0 <= j < |r| && r[i].contact.id == id && j != i
      ensures r[j].zIndex < r[i].zIndex
    {
      assert Ids(chats)[i] != Ids(chats)[j];
      assert zs[j] in zs;
    }
  }

  /** Armed timers are keyed by contact: no contact ever has two of them. */
  lemma AtMostOneTimerPerContact(ids: seq<int>, typingTimeouts: map<int, nat>, pending: map<nat, int>, nextHandle: nat, h1: nat, h2: nat)
    requires TimersConsistent(ids, typingTimeouts, pending, nextHandle)
    requires h1 in pending && h2 in pending && pending[h1] == pending[h2]
    ensures h1 == h2
  {
  }

  /** Re-arming a contact's timer cancels the one it had, so the bookkeeping stays consistent. */
  lemma RearmKeepsTimers(ids: seq<int>, typingTimeouts: map<int, nat>, pending: map<nat, int>, nextHandle: nat, id: int)
    requires TimersConsistent(ids, typingTimeouts, pending, nextHandle) && id in ids
    ensures var cancelled := if id in typingTimeouts then pending - {typingTimeouts[id]} else pending;
      TimersConsistent(ids, typingTimeouts[id := nextHandle], cancelled[nextHandle := id], nextHandle + 1)
  {
    var cancelled := if id in typingTimeouts then pending - {typingTimeouts[id]} else pending;
    var t, p := typingTimeouts[id := nextHandle], cancelled[nextHandle := id];
    forall h | h in p ensures p[h] in ids && p[h] in t && t[p[h]] == h {
      if h != nextHandle {
        assert h in pending && p[h] == pending[h];
        assert h < nextHandle;
      }
    }
  }

  /** Closing a window and cancelling its timer leaves every armed timer on a window that is still open. */
  lemma CancelKeepsTimers(ids: seq<int>, rest: seq<int>, typingTimeouts: map<int, nat>, pending: map<nat, int>, nextHandle: nat, id: int)
    requires TimersConsistent(ids, typingTimeouts, pending, nextHandle)
    requires forall x :: x in rest <==> x in ids && x != id
    ensures var cancelled := if id in typingTimeouts then pending - {typingTimeouts[id]} else pending;
      TimersConsistent(rest, typingTimeouts - {id}, cancelled, nextHandle)
  {
    var cancelled := if id in typingTimeouts then pending - {typingTimeouts[id]} else pending;
    var t := typingTimeouts - {id};
    forall h | h in cancelled ensures cancelled[h] in rest && cancelled[h] in t && t[cancelled[h]] == h {
      assert pending[h] != id;
    }
  }

  /**
   * The simulator's invariant: windows are unique per contact, their
   * z-indices are distinct and handed out by the counter, drafts belong to
   * open windows, and the timer bookkeeping is consistent.
   */
  predicate Inv(chats: seq<ChatWindow>, drafts: map<int, String>, maxZIndex: int,
                typingTimeouts: map<int, nat>, pending: map<nat, int>, nextHandle: nat)
  {
    maxZIndex >= InitialZIndex
    && Distinct(Ids(chats))
    && ZOrder(ZIndices(chats), maxZIndex)
    && (forall id :: id in drafts ==> id in Ids(chats))
    && TimersConsistent(Ids(chats), typingTimeouts, pending, nextHandle)
  }

  /** Closing a window keeps the invariant and leaves no window, draft or armed timer for that contact. */
  lemma CloseKeepsInv(chats: seq<ChatWindow>, drafts: map<int, String>, maxZIndex: int,
                      typingTimeouts: map<int, nat>, pending: map<nat, int>, nextHandle: nat, id: int)
    requires Inv(chats, drafts, maxZIndex, typingTimeouts, pending, nextHandle)
    ensures var rest := Filter(chats, Others(id));
      var cancelled := if id in typingTimeouts then pending - {typingTimeouts[id]} else pending;
      Inv(rest, drafts - {id}, maxZIndex, typingTimeouts - {id}, cancelled, nextHandle)
      && !IsOpen(rest, id) && forall h :: h in cancelled ==> cancelled[h] != id
  {
    var rest := Filter(chats, Others(id));
    if IsOpen(chats, id) {
      var k :| 0 <= k < |chats| && Ids(chats)[k] == id;
      CloseRemovesThatWindow(chats, k);
      RemoveWindow(chats, k);
    } else {
      CloseAbsentIsNoOp(chats, id);
    }
    CancelKeepsTimers(Ids(chats), Ids(rest), typingTimeouts, pending, nextHandle, id);
  }

  class Simulator {
    var openChats: seq<ChatWindow>
    var newMessages: map<int, String>
    var maxZIndex: int
    var typingTimeouts: map<int, nat>
    var pending: map<nat, int>
    var nextHandle: nat

    ghost predicate Valid()
      reads this
    {
      Inv(openChats, newMessages, maxZIndex, typingTimeouts, pending, nextHandle)
    }

    constructor ()
      ensures Valid()
      ensures openChats == [] && newMessages == map[] && maxZIndex == InitialZIndex
      ensures typingTimeouts == map[] && pending == map[] && nextHandle == 1
    {
      openChats := [];
      newMessages := map[];
      maxZIndex := InitialZIndex;
      typingTimeouts := map[];
      pending := map[];
      nextHandle := 1;
    }

    /** `bringToFront`: the counter always grows, even when no window has that id. */
    method BringToFront(id: int)
      requires Valid()
      modifies this
      ensures Valid()
      ensures maxZIndex == old(maxZIndex) + 1
      ensures openChats == Updated(old(openChats), id, Raise(maxZIndex))
      ensures Ids(openChats) == Ids(old(openChats))
      ensures forall i, j :: 0 <= i < |openChats| && 0 <= j < |openChats| && openChats[i].contact.id == id && j != i ==>
                openChats[j].zIndex < openChats[i].zIndex
      ensures newMessages == old(newMessages) && typingTimeouts == old(typingTimeouts)
      ensures pending == old(pending) && nextHandle == old(nextHandle)
    {
      RaiseKeepsZOrder(openChats, maxZIndex, id);
      var z := maxZIndex + 1;
      var raised := Updated(openChats, id, Raise(z));
      assert TimersConsistent(Ids(raised), typingTimeouts, pending, nextHandle);
      assert forall x :: x in newMessages ==> x in Ids(raised);
      maxZIndex := z;
      openChats := raised;
    }

    /** `handleStartChat`: open a new window on top, or focus the existing one. */
    method StartChat(contact: Contact, time: String)
      requires Valid()
      modifies this
      ensures Valid()
      ensures maxZIndex == old(maxZIndex) + 1
      ensures !old(IsOpen(openChats, contact.id)) ==>
        openChats == old(openChats) + [ChatWindow(contact,
          [Message(1, contact.name, Greeting(contact.status), time, contact.avatar, false)], false, maxZIndex)]
      ensures old(IsOpen(openChats, contact.id)) ==> openChats == Updated(old(openChats), contact.id, Raise(maxZIndex))
      ensures IsOpen(openChats, contact.id)
      ensures newMessages == old(newMessages) && typingTimeouts == old(typingTimeouts)
      ensures pending == old(pending) && nextHandle == old(nextHandle)
    {
      if contact.id !in Ids(openChats) {
        var z := maxZIndex + 1;
        var initial := Message(1, contact.name, Greeting(contact.status), time, contact.avatar, false);
        var w := ChatWindow(contact, [initial], false, z);
        forall i | 0 <= i < |openChats| ensures ZIndices(openChats)[i] < z {
          assert ZIndices(openChats)[i] in ZIndices(openChats);
        }
        assert Ids(openChats + [w]) == Ids(openChats) + [contact.id];
        assert ZIndices(openChats + [w]) == ZIndices(openChats) + [z];
        maxZIndex := z;
        openChats := openChats + [w];
      } else {
        BringToFront(contact.id);
      }
    }

    /** `handleCloseChat`: drop the window and its draft and cancel its typing timer. */
    method CloseChat(id: int)
      requires Valid()
      modifies this
      ensures Valid()
      ensures openChats == Filter(old(openChats), Others(id)) && !IsOpen(openChats, id)
      ensures newMessages == old(newMessages) - {id}
      ensures typingTimeouts == old(typingTimeouts) - {id}
      ensures pending == if id in old(typingTimeouts) then old(pending) - {old(typingTimeouts)[id]} else old(pending)
      ensures maxZIndex == old(maxZIndex) && nextHandle == old(nextHandle)
    {
      CloseKeepsInv(openChats, newMessages, maxZIndex, typingTimeouts, pending, nextHandle, id);
      openChats := Filter(openChats, Others(id));
      newMessages := newMessages - {id};
      if id in typingTimeouts {
        pending := pending - {typingTimeouts[id]};
      }
      typingTimeouts := typingTimeouts - {id};
    }

    /** The textarea's `onChange`, which exists only inside an open window. */
    method EditDraft(id: int, text: String)
      requires Valid() && IsOpen(openChats, id)
      modifies this
      ensures Valid()
      ensures newMessages == old(newMessages)[id := text]
      ensures openChats == old(openChats) && maxZIndex == old(maxZIndex)
      ensures typingTimeouts == old(typingTimeouts) && pending == old(pending) && nextHandle == old(nextHandle)
    {
      newMessages := newMessages[id := text];
    }

    /** `simulateTyping`: show the typing flag and re-arm the contact's only timer. */
    method SimulateTyping(id: int)
      requires Valid() && IsOpen(openChats, id)
      modifies this
      ensures Valid()
      ensures openChats == Updated(old(openChats), id, StartTyping)
      ensures typingTimeouts == old(typingTimeouts)[id := old(nextHandle)]
      ensures pending == (if id in old(typingTimeouts) then old(pending) - {old(typingTimeouts)[id]} else old(pending))[old(nextHandle) := id]
      ensures nextHandle == old(nextHandle) + 1
      ensures newMessages == old(newMessages) && maxZIndex == old(maxZIndex)
    {
      RearmKeepsTimers(Ids(openChats), typingTimeouts, pending, nextHandle, id);
      openChats := Updated(openChats, id, StartTyping);
      if id in typingTimeouts {
        pending := pending - {typingTimeouts[id]};
      }
      typingTimeouts := typingTimeouts[id := nextHandle];
      pending := pending[nextHandle := id];
      nextHandle := nextHandle + 1;
    }

    /**
     * `handleSendMessage`: a missing or blank draft does nothing; otherwise the
     * trimmed text is appended as the user's message to that window only, the
     * draft is emptied, and an online contact starts typing a reply.
     */
    method SendMessage(id: int, now: int, time: String)
      requires Valid()
      modifies this
      ensures Valid()
      ensures id !in old(newMessages) || Trim(JavaScript, old(newMessages)[id]) == [] ==>
        openChats == old(openChats) && newMessages == old(newMessages)
        && typingTimeouts == old(typingTimeouts) && pending == old(pending) && nextHandle == old(nextHandle)
      ensures id in old(newMessages) && Trim(JavaScript, old(newMessages)[id]) != [] ==>
        var m := Message(now, "Você", Trim(JavaScript, old(newMessages)[id]), time, UserAvatar, true);
        var posted := Updated(old(openChats), id, Post(m));
        newMessages == old(newMessages)[id := ""]
        && (OnlineContact(id) ==>
              openChats == Updated(posted, id, StartTyping) && nextHandle == old(nextHandle) + 1
              && typingTimeouts == old(typingTimeouts)[id := old(nextHandle)]
              && pending == (if id in old(typingTimeouts) then old(pending) - {old(typingTimeouts)[id]} else old(pending))[old(nextHandle) := id])
        && (!OnlineContact(id) ==>
              openChats == posted && nextHandle == old(nextHandle)
              && typingTimeouts == old(typingTimeouts) && pending == old(pending))
      ensures maxZIndex == old(maxZIndex)
    {
      if id !in newMessages {
        return;
      }
      var message := Trim(JavaScript, newMessages[id]);
      if message == [] {
        return;
      }
      var m := Message(now, "Você", message, time, UserAvatar, true);
      openChats := Updated(openChats, id, Post(m));
      newMessages := newMessages[id := ""];
      if OnlineContact(id) {
        SimulateTyping(id);
      }
    }

    /**
     * The typing timer of handle h fires: it appends the chosen reply, signed
     * by the contact, to that contact's window and clears its typing flag.
     * The ref map keeps the spent handle.
     */
    method Fire(h: nat, choice: nat, now: int, time: String)
      requires Valid() && h in pending && choice < |DemoResponses|
      modifies this
      ensures Valid()
      ensures var m := Message(now, ReplyAuthor(old(pending)[h]), DemoResponses[choice], time, ReplyAvatar(old(pending)[h]), false);
        openChats == Updated(old(openChats), old(pending)[h], Answer(m))
      ensures pending == old(pending) - {h}
      ensures typingTimeouts == old(typingTimeouts) && nextHandle == old(nextHandle)
      ensures newMessages == old(newMessages) && maxZIndex == old(maxZIndex)
    {
      var id := pending[h];
      var m := Message(now, ReplyAuthor(id), DemoResponses[choice], time, ReplyAvatar(id), false);
      openChats := Updated(openChats, id, Answer(m));
      pending := pending - {h};
    }

    /** The unmount cleanup cancels every armed timer. */
    method Unmount()
      requires Valid()
      modifies this
      ensures Valid()
      ensures pending == map[]
      ensures openChats == old(openChats) && newMessages == old(newMessages) && maxZIndex == old(maxZIndex)
      ensures typingTimeouts == old(typingTimeouts) && nextHandle == old(nextHandle)
    {
      pending := map[];
    }
  }

  /** `contacts.find(c => c.id === id)?.status === 'online'`. */
  predicate OnlineContact(id: int)
  {
    var k := FindIndex(Contacts, (c: Contact) => c.id == id);
    k.Some? && Contacts[k.value].status == Online
  }

  /** The reply's author: the contact's name, or "Contato" when it is missing or empty. */
  function ReplyAuthor(id: int): String
  {
    var k := FindIndex(Contacts, (c: Contact) => c.id == id);
    if k.Some? && Contacts[k.value].name != "" then Contacts[k.value].name else "Contato"
  }

  /** The reply's avatar: the contact's avatar, or the generic one. */
  function ReplyAvatar(id: int): String
  {
    var k := FindIndex(Contacts, (c: Contact) => c.id == id);
    if k.Some? && Contacts[k.value].avatar != "" then Contacts[k.value].avatar else UserAvatar
  }

  /** Of the fixed contacts, exactly those with ids 1, 2 and 4 answer messages. */
  lemma OnlyOnlineContactsReply(id: int)
    ensures OnlineContact(id) <==> id in {1, 2, 4}
  {
    var k := FindIndex(Contacts, (c: Contact) => c.id == id);
    if id in {1, 2, 3, 4, 5, 6} {
      assert Contacts[id - 1].id == id;
    }
  }
}
