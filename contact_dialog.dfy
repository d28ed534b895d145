/**
 * The contact dialog (src/ContactDialog.jsx) over the per-contact threads of
 * the chat drawer.
 */
module ContactDialogView {

  /**
   * The property names every plain object inherits from `Object.prototype`.
   * The `in` test of Ok finds them even on a copy with no own properties.
   */
  const INHERITED: set<string> := {
    "constructor", "hasOwnProperty", "isPrototypeOf", "propertyIsEnumerable",
    "toLocaleString", "toString", "valueOf", "__proto__",
    "__defineGetter__", "__defineSetter__", "__lookupGetter__", "__lookupSetter__"}

  /** `name in newChat` on the copy `{ ...prevChat }`: an own thread or an inherited property. */
  predicate HasProperty<M>(chat: map<string, seq<M>>, name: string) {
    name in chat || name in INHERITED
  }

  /**
   * The `setChat` updater of Ok: the map is copied, and the name gets an
   * empty thread when the copy has no property of that name.
   */
  function WithThread<M>(chat: map<string, seq<M>>, name: string): (r: map<string, seq<M>>)
    ensures r.Keys == chat.Keys + (if name in INHERITED then {} else {name})
    ensures HasProperty(chat, name) ==> r == chat
    ensures !HasProperty(chat, name) ==> name in r && r[name] == []
    ensures forall other :: other in chat && other != name ==> r[other] == chat[other]
  {
    var newChat := chat;
    if !(name in newChat || name in INHERITED) then newChat[name := []] else newChat
  }

  /** Pressing Ok twice with the same name is pressing it once. */
  lemma WithThreadIdempotent<M>(chat: map<string, seq<M>>, name: string)
    ensures WithThread(WithThread(chat, name), name) == WithThread(chat, name)
  {
  }

  /** A name such as "toString" gets no thread: with no threads yet, Ok leaves the threads empty. */
  lemma InheritedNameGetsNoThread<M>(name: string)
    requires name in INHERITED
    ensures var none: map<string, seq<M>> := map[]; WithThread(none, name) == none
  {
  }

  class ContactDialog<M> {
    var chat: map<string, seq<M>>
    var contact: string
    var open: bool
    var username: string

    constructor (chat: map<string, seq<M>>, contact: string)
      ensures this.chat == chat && this.contact == contact && !open && username == ""
    {
      this.chat := chat;
      this.contact := contact;
      open := false;
      username := "";
    }

    /** Ok: the typed name gets a thread unless the copy has that property, becomes the contact, and the dialog closes. */
    method Ok()
      modifies this
      ensures chat == WithThread(old(chat), username)
      ensures contact == username && !open && username == old(username)
    {
      var newChat := chat;
      if !(username in newChat || username in INHERITED) {
        newChat := newChat[username := []];
      }
      chat := newChat;
      contact := username;
      open := false;
    }

    /** Close: the dialog closes and nothing else changes. */
    method Close()
      modifies this
      ensures !open && chat == old(chat) && contact == old(contact) && username == old(username)
    {
      open := false;
    }
  }
}
