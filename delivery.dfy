/**
  The user callbacks of the bot and the decision `_send` makes: no message
  means no send, an image means a photo with caption, otherwise a text
  message; the transport either returns or raises.
*/
module Delivery {
  import opened Wrappers

  /** What `_send` hands to the chat transport. */
  datatype Outgoing =
    | TextMessage(chatId: string, text: string)
    | PhotoMessage(chatId: string, caption: string, imageUrl: string)

  /**
    The outcome of one send on the network: true when the Telegram call
    returned, false when it (or the image download) raised.
  */
  type Transport = Outgoing -> bool

  /**
    The callbacks as registered through the decorators: the three required
    ones may be missing (`None`), `get_image` defaults to always `None`.
  */
  datatype Hooks<!R> = Hooks(
    parseQuery: Option<string -> seq<R>>,
    getKey: Option<R -> Option<string>>,
    craftMessage: Option<R -> Option<string>>,
    getImage: R -> Option<string>)

  /** The default `get_image`: no image for any result. */
  function NoImage<R>(r: R): Option<string> { None }

  /**
    The callbacks of a freshly constructed bot: none of the required ones is
    registered yet, and `get_image` answers no image for every result.
  */
  function InitialHooks<R>(): (h: Hooks<R>)
    ensures !Ready(h)
    ensures h.parseQuery.None? && h.getKey.None? && h.craftMessage.None?
  {
    Hooks(None, None, None, NoImage)
  }

  /** With the default `get_image` every crafted message goes out as a text message. */
  lemma DefaultImageSendsText<R>(cb: Callbacks<R>, chatId: string, r: R)
    requires cb.getImage == InitialHooks<R>().getImage
    requires cb.craftMessage(r).Some?
    ensures Dispatch(cb, chatId, r) == Some(TextMessage(chatId, cb.craftMessage(r).value))
  {
  }

  /** The condition `start` checks before the bot may run. */
  predicate Ready<R>(h: Hooks<R>) {
    h.parseQuery.Some? && h.getKey.Some? && h.craftMessage.Some?
  }

  /** The callbacks of a bot that passed the start check. */
  datatype Callbacks<!R> = Callbacks(
    parseQuery: string -> seq<R>,
    getKey: R -> Option<string>,
    craftMessage: R -> Option<string>,
    getImage: R -> Option<string>)

  function Activated<R>(h: Hooks<R>): Callbacks<R>
    requires Ready(h)
  {
    Callbacks(h.parseQuery.value, h.getKey.value, h.craftMessage.value, h.getImage)
  }

  /** The send `_send` performs for a result, if any. */
  function Dispatch<R>(cb: Callbacks<R>, chatId: string, r: R): (o: Option<Outgoing>)
    ensures o.Some? <==> cb.craftMessage(r).Some?
    ensures o.Some? ==> o.value.chatId == chatId
    ensures o.Some? ==> (o.value.PhotoMessage? <==> cb.getImage(r).Some?)
  {
    match cb.craftMessage(r)
    case None => None
    case Some(m) =>
      match cb.getImage(r)
      case Some(url) => Some(PhotoMessage(chatId, m, url))
      case None => Some(TextMessage(chatId, m))
  }

  /** What `_send` returns for a result under a transport. */
  function Delivered<R>(cb: Callbacks<R>, t: Transport, chatId: string, r: R): (ok: bool)
    ensures ok ==> cb.craftMessage(r).Some?
    ensures cb.craftMessage(r).Some? ==> (ok <==> t(Dispatch(cb, chatId, r).value))
  {
    match Dispatch(cb, chatId, r)
    case None => false
    case Some(o) => t(o)
  }
}
