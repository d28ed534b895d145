/**
 * How a chat message is laid out (src/Message.jsx): the side follows the
 * author, the element kind follows the mime type and the two type lists.
 */
module MessageView {

  /** The element a message body is rendered as. */
  datatype Kind = TextKind | ImageKind | VideoKind

  /**
   * The side a message sits on, as its `alignItems` and bubble class: only the
   * local user's own messages (author `"You"`) are laid out as sent.
   */
  function Layout(author: string): (r: (string, string))
    ensures r.0 == "flex-end" <==> author == "You"
    ensures r.0 == "flex-start" <==> author != "You"
    ensures r.1 == "message message__sender" <==> author == "You"
    ensures r.1 == "message message__recipient" <==> author != "You"
  {
    var divCssClass := if author != "You" then "flex-start" else "flex-end";
    var messageCssClass := if author != "You" then "message message__recipient" else "message message__sender";
    (divCssClass, messageCssClass)
  }

  /**
   * The element kind.  The `switch` picks text for every mime type, known or
   * not; then an image type wins over a video type.
   */
  function KindOf(mimeType: string, imageTypes: seq<string>, videoTypes: seq<string>): (k: Kind)
    ensures k == ImageKind <==> mimeType in imageTypes
    ensures k == VideoKind <==> mimeType !in imageTypes && mimeType in videoTypes
    ensures k == TextKind <==> mimeType !in imageTypes && mimeType !in videoTypes
  {
    if mimeType in imageTypes then ImageKind
    else if mimeType in videoTypes then VideoKind
    else TextKind
  }

  /** The class added for the kind: images and videos share one. */
  function KindClass(k: Kind): (c: string)
    ensures c == " message__image" <==> k != TextKind
    ensures c == " message__text" <==> k == TextKind
  {
    if k == TextKind then " message__text" else " message__image"
  }
}
