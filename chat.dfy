/**
 * The chat page: a contact list filtered by a search term, status dots,
 * and a conversation to which the user's typed message is appended. The
 * message id and time come from the clock and are parameters.
 */
module Chat {
  import opened Basics
  import opened Text

  datatype Status = Online | Away | Offline

  datatype Contact = Contact(id: String, name: String, status: Status)

  datatype Sender = Me | Them

  datatype Message = Message(id: String, sender: Sender, text: String, time: String)

  // ---------------------------------------------------------------------------
  // sendMessage
  // ---------------------------------------------------------------------------

  /** `!input.trim()`: the input is empty or white space only. */
  predicate Blank(input: String)
  {
    Trim(JavaScript, input) == []
  }

  /**
   * `sendMessage`'s new messages and input: a blank input changes neither;
   * otherwise exactly one message from the user, with the text as typed, is
   * added after the existing ones, and the input is emptied.
   */
  function AfterSend(messages: seq<Message>, input: String, id: String, time: String): (r: (seq<Message>, String))
    ensures Blank(input) ==> r == (messages, input)
    ensures !Blank(input) ==> |r.0| == |messages| + 1 && r.0[..|messages|] == messages && r.1 == []
    ensures !Blank(input) ==> r.0[|messages|].sender == Me && r.0[|messages|].text == input
  {
    if Blank(input) then (messages, input)
    else (messages + [Message(id, Me, input, time)], [])
  }

  /** Every message the user sent holds something other than white space. */
  predicate UserTextsNotBlank(messages: seq<Message>)
  {
    forall i :: 0 <= i < |messages| && messages[i].sender == Me ==> !Blank(messages[i].text)
  }

  /** Sending keeps that true: a blank input is never sent. */
  lemma AfterSendKeepsTextsNotBlank(messages: seq<Message>, input: String, id: String, time: String)
    requires UserTextsNotBlank(messages)
    ensures UserTextsNotBlank(AfterSend(messages, input, id, time).0)
  {
    var r := AfterSend(messages, input, id, time).0;
    if !Blank(input) {
      assert forall i :: 0 <= i < |messages| ==> r[i] == messages[i];
    }
  }

  /** A blank input is one made of white space only, so every input with a visible character is sent. */
  lemma SentIffVisible(messages: seq<Message>, input: String, id: String, time: String)
    ensures |AfterSend(messages, input, id, time).0| == |messages| + 1 <==> !AllSpace(JavaScript, input)
  {
    BlankIffAllSpace(JavaScript, input);
  }

  /** The conversation of the page. */
  class Conversation {
    var messages: seq<Message>
    var input: String

    constructor (initial: seq<Message>)
      ensures messages == initial && input == []
    {
      messages := initial;
      input := [];
    }

    /** The input's `onChange`. */
    method Type(value: String)
      modifies this
      ensures input == value && messages == old(messages)
    {
      input := value;
    }

    /** `sendMessage`: the Enter key and the send button. */
    method Send(id: String, time: String)
      modifies this
      ensures (messages, input) == AfterSend(old(messages), old(input), id, time)
    {
      if Trim(JavaScript, input) == [] {
        return;
      }
      messages := messages + [Message(id, Me, input, time)];
      input := [];
    }
  }

  // ---------------------------------------------------------------------------
  // getStatusColor and filteredContacts
  // ---------------------------------------------------------------------------

  /** `getStatusColor`: the class of the status dot. */
  function StatusColor(status: Status): String
  {
    match status
    case Online => "bg-msn-green"
    case Away => "bg-msn-yellow"
    case Offline => "bg-msn-red"
  }

  /** The dot's class tells the status back. */
  function StatusOfColor(color: String): Option<Status>
  {
    if color == "bg-msn-green" then Some(Online)
    else if color == "bg-msn-yellow" then Some(Away)
    else if color == "bg-msn-red" then Some(Offline)
    else None
  }

  /** Every status has a class, and different statuses have different classes. */
  lemma StatusColorRoundTrip(status: Status)
    ensures StatusOfColor(StatusColor(status)) == Some(status)
  {
  }

  function NameMatches(term: String): Contact -> bool
  {
    (c: Contact) => Contains(Lower(c.name), Lower(term))
  }

  /** `filteredContacts`: case-insensitive substring search on the name. */
  function FilteredContacts(contacts: seq<Contact>, term: String): (r: seq<Contact>)
    ensures |r| <= |contacts|
  {
    Filter(contacts, NameMatches(term))
  }

  /**
   * A contact is listed exactly when the lower-cased term occurs somewhere
   * in its lower-cased name; the empty term lists every contact, in order.
   */
  lemma FilteredContactsExactly(contacts: seq<Contact>, term: String)
    ensures forall c :: c in FilteredContacts(contacts, term) <==>
      c in contacts && exists i :: OccursAt(Lower(c.name), Lower(term), i)
    ensures term == [] ==> FilteredContacts(contacts, term) == contacts
  {
    FilterMembers(contacts, NameMatches(term));
    forall c | c in contacts
      ensures NameMatches(term)(c) <==> exists i :: OccursAt(Lower(c.name), Lower(term), i)
    {
      ContainsIffOccurs(Lower(c.name), Lower(term));
    }
    if term == [] {
      forall i | 0 <= i < |contacts| ensures NameMatches(term)(contacts[i]) {
        assert StartsWith(Lower(contacts[i].name), []);
      }
      FilterKeepsAll(contacts, NameMatches(term));
    }
  }
}
