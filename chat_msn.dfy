/**
 * The MSN page: a contact list and one floating chat window per contact
 * name. A window opens with a greeting from the contact, a sent message is
 * appended to the window of that name only, and closing drops every window
 * of that name. There is no z-order: every window uses the frame's default.
 * The send time is a parameter (the page formats the clock).
 */
module ChatMsn {
  import opened Basics
  import opened Text

  datatype Status = Online | Away | Offline

  datatype Contact = Contact(name: String, status: Status)

  datatype Message = Message(sender: String, text: String, timestamp: String)

  datatype ChatWindow = ChatWindow(contact: Contact, messages: seq<Message>)

  const InitialContacts: seq<Contact> := [
    Contact("João Silva", Online),
    Contact("Maria Santos", Online),
    Contact("Pedro Costa", Away),
    Contact("Ana Silva", Offline)
  ]

  /** The user's own messages are signed with this name. */
  const Me: String := "Você"

  /** The message a new window opens with: "Oi!" from the contact, stamped "10:30". */
  function Greeting(contact: Contact): Message
  {
    Message(contact.name, "Oi!", "10:30")
  }

  /** A window whose first message is its contact's greeting. */
  predicate Greeted(w: ChatWindow)
  {
    |w.messages| >= 1 && w.messages[0] == Greeting(w.contact)
  }

  /** The contact names of the open windows, in window order. */
  function Names(ws: seq<ChatWindow>): (names: seq<String>)
    ensures |names| == |ws| && forall i :: 0 <= i < |ws| ==> names[i] == ws[i].contact.name
  {
    seq(|ws|, i requires 0 <= i < |ws| => ws[i].contact.name)
  }

  function OtherThan(name: String): ChatWindow -> bool
  {
    (w: ChatWindow) => w.contact.name != name
  }

  /** `handleCloseChat`'s filter: the windows of every other contact, in order. */
  function Closed(ws: seq<ChatWindow>, name: String): (r: seq<ChatWindow>)
    ensures name !in Names(r)
  {
    var r := Filter(ws, OtherThan(name));
    assert forall i :: 0 <= i < |r| ==> Names(r)[i] != name by {
      forall i | 0 <= i < |r| ensures Names(r)[i] != name {
        assert OtherThan(name)(r[i]);
      }
    }
    r
  }

  /** `handleSendMessage`'s map: m is appended to the windows named name, the others are kept. */
  function SentTo(ws: seq<ChatWindow>, name: String, m: Message): (r: seq<ChatWindow>)
    ensures |r| == |ws| && Names(r) == Names(ws)
    ensures forall i :: 0 <= i < |ws| ==> r[i].contact == ws[i].contact
    ensures forall i :: 0 <= i < |ws| && ws[i].contact.name != name ==> r[i] == ws[i]
    ensures forall i :: 0 <= i < |ws| && ws[i].contact.name == name ==> r[i].messages == ws[i].messages + [m]
  {
    var r := seq(|ws|, i requires 0 <= i < |ws| =>
      if ws[i].contact.name == name then ws[i].(messages := ws[i].messages + [m]) else ws[i]);
    assert Names(r) == Names(ws);
    r
  }

  /** Closing keeps exactly the windows of other contacts. */
  lemma ClosedKeepsOthers(ws: seq<ChatWindow>, name: String)
    ensures forall w :: w in Closed(ws, name) <==> w in ws && w.contact.name != name
  {
    FilterMembers(ws, OtherThan(name));
  }

  /** With names unique, closing an open window removes just that one and keeps the rest in order. */
  lemma CloseRemovesOneWindow(ws: seq<ChatWindow>, k: nat)
    requires Distinct(Names(ws)) && k < |ws|
    ensures Closed(ws, ws[k].contact.name) == ws[..k] + ws[k + 1..]
  {
    var name := ws[k].contact.name;
    forall i | 0 <= i < |ws| && i != k ensures OtherThan(name)(ws[i]) {
      assert Names(ws)[i] != Names(ws)[k];
    }
    FilterDropsOne(ws, OtherThan(name), k);
  }

  /** Closing a name that has no window changes nothing. */
  lemma CloseAbsentIsNoOp(ws: seq<ChatWindow>, name: String)
    requires name !in Names(ws)
    ensures Closed(ws, name) == ws
  {
    forall i | 0 <= i < |ws| ensures OtherThan(name)(ws[i]) {
      assert Names(ws)[i] in Names(ws);
    }
    FilterKeepsAll(ws, OtherThan(name));
  }

  /** With names unique, a message sent to an open window lands in that window only. */
  lemma SendReachesOneWindow(ws: seq<ChatWindow>, k: nat, m: Message)
    requires Distinct(Names(ws)) && k < |ws|
    ensures SentTo(ws, ws[k].contact.name, m) == ws[k := ws[k].(messages := ws[k].messages + [m])]
  {
    var name := ws[k].contact.name;
    forall i | 0 <= i < |ws| && i != k ensures ws[i].contact.name != name {
      assert Names(ws)[i] != Names(ws)[k];
    }
  }

  /** A message sent to a name with no window is dropped. */
  lemma SendToAbsentIsNoOp(ws: seq<ChatWindow>, name: String, m: Message)
    requires name !in Names(ws)
    ensures SentTo(ws, name, m) == ws
  {
    forall i | 0 <= i < |ws| ensures ws[i].contact.name != name {
      assert Names(ws)[i] in Names(ws);
    }
  }

  /** The page's invariant: at most one window per name, each opened by its contact's greeting. */
  predicate Inv(ws: seq<ChatWindow>)
  {
    Distinct(Names(ws)) && forall i :: 0 <= i < |ws| ==> Greeted(ws[i])
  }

  /** Closing keeps the invariant. */
  lemma ClosedKeepsInv(ws: seq<ChatWindow>, name: String)
    requires Inv(ws)
    ensures Inv(Closed(ws, name))
  {
    if name in Names(ws) {
      var k :| 0 <= k < |ws| && Names(ws)[k] == name;
      CloseRemovesOneWindow(ws, k);
      var r := ws[..k] + ws[k + 1..];
      assert Names(r) == Names(ws)[..k] + Names(ws)[k + 1..];
      DistinctRemoveAt(Names(ws), k);
      forall i | 0 <= i < |r| ensures Greeted(r[i]) {
        if i < k { assert r[i] == ws[i]; } else { assert r[i] == ws[i + 1]; }
      }
    } else {
      CloseAbsentIsNoOp(ws, name);
    }
  }

  /** Sending keeps the invariant: the greeting stays the first message. */
  lemma SentToKeepsInv(ws: seq<ChatWindow>, name: String, m: Message)
    requires Inv(ws)
    ensures Inv(SentTo(ws, name, m))
  {
    var r := SentTo(ws, name, m);
    forall i | 0 <= i < |r| ensures Greeted(r[i]) {
      assert Greeted(ws[i]);
      if ws[i].contact.name == name {
        assert r[i].messages[0] == ws[i].messages[0];
      }
    }
  }

  class Page {
    var chatWindows: seq<ChatWindow>

    ghost predicate Valid()
      reads this
    {
      Inv(chatWindows)
    }

    constructor ()
      ensures Valid() && chatWindows == []
    {
      chatWindows := [];
    }

    /** `handleStartChat`: a name that already has a window changes nothing; otherwise a greeted window is appended. */
    method StartChat(contact: Contact)
      requires Valid()
      modifies this
      ensures Valid()
      ensures contact.name in Names(old(chatWindows)) ==> chatWindows == old(chatWindows)
      ensures contact.name !in Names(old(chatWindows)) ==>
        chatWindows == old(chatWindows) + [ChatWindow(contact, [Greeting(contact)])]
      ensures contact.name in Names(chatWindows)
    {
      if contact.name in Names(chatWindows) {
        return;
      }
      var w := ChatWindow(contact, [Greeting(contact)]);
      assert Names(chatWindows + [w]) == Names(chatWindows) + [contact.name];
      chatWindows := chatWindows + [w];
    }

    /** `handleCloseChat`. */
    method CloseChat(name: String)
      requires Valid()
      modifies this
      ensures Valid()
      ensures chatWindows == Closed(old(chatWindows), name)
    {
      ClosedKeepsInv(chatWindows, name);
      chatWindows := Closed(chatWindows, name);
    }

    /** `handleSendMessage`: the text is appended, signed by the user, to that name's window. */
    method SendMessage(name: String, message: String, time: String)
      requires Valid()
      modifies this
      ensures Valid()
      ensures chatWindows == SentTo(old(chatWindows), name, Message(Me, message, time))
    {
      SentToKeepsInv(chatWindows, name, Message(Me, message, time));
      chatWindows := SentTo(chatWindows, name, Message(Me, message, time));
    }

    /**
     * The Enter key and the "Enviar" button: a non-empty input value, as it
     * is and not trimmed, is sent, and the input is emptied; an empty one
     * does nothing. Returns the input's new value.
     */
    method SubmitInput(name: String, value: String, time: String) returns (input: String)
      requires Valid()
      modifies this
      ensures Valid()
      ensures value == [] ==> chatWindows == old(chatWindows) && input == value
      ensures value != [] ==> chatWindows == SentTo(old(chatWindows), name, Message(Me, value, time)) && input == []
    {
      input := value;
      if value != [] {
        SendMessage(name, value, time);
        input := [];
      }
    }
  }
}
