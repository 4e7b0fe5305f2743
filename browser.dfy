/**
 * The two pieces of browser state the popups touch: the embedding frame that
 * receives `postMessage` notifications, and `localStorage`.
 */
module Browser {
  import opened Wrappers

  /** The notifications a popup posts to the page that embeds it. */
  datatype Message = PopupActive | PopupClosed

  /** The literal string sent for each notification. */
  function Wire(m: Message): string {
    match m
    case PopupActive => "hema-popup-active"
    case PopupClosed => "hema-popup-closed"
  }

  /** Distinct notifications go out as distinct strings, so the embedding page can tell them apart. */
  lemma WireInjective(a: Message, b: Message)
    ensures Wire(a) == Wire(b) ==> a == b
  {
    if a != b {
      assert Wire(a)[12] != Wire(b)[12];
    }
  }

  /** `window.parent`: it receives the posted notifications, in order. */
  class ParentWindow {
    var received: seq<Message>

    constructor ()
      ensures received == []
    {
      received := [];
    }

    method PostMessage(m: Message)
      modifies this
      ensures received == old(received) + [m]
    {
      received := received + [m];
    }
  }

  /** `localStorage` for the hosting origin: a map from keys to string values. */
  class LocalStorage {
    var items: map<string, string>

    constructor (items: map<string, string>)
      ensures this.items == items
    {
      this.items := items;
    }

    /** `getItem`: the stored value, or null. */
    function GetItem(key: string): Option<string>
      reads this
    {
      if key in items then Some(items[key]) else None
    }

    method SetItem(key: string, value: string)
      modifies this
      ensures items == old(items)[key := value]
    {
      items := items[key := value];
    }

    method RemoveItem(key: string)
      modifies this
      ensures items == old(items) - {key}
    {
      items := items - {key};
    }
  }
}
