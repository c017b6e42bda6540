/** The transient view state of src/components/Layout/ChatSidebar.jsx (`searchQuery`,
    `hoveredChatId`, `menuChatId`) and the calls the sidebar makes into the conversation store,
    the router and its parent. The store's operations are recorded as calls, not interpreted:
    their effect on the conversation list is not part of this model. */
module ChatSidebar {
  import opened Wrappers
  import opened Sequences
  import opened ConversationView

  /** A call the sidebar makes into code outside it. */
  datatype Call =
    | AddConversation(title: string)
    | DeleteConversation(id: string)
    | TogglePin(id: string)
    | SetActiveChatId(id: string)
    | Navigate(path: string)
    | SetMobileOpen(open: bool)

  /** What the New Chat button issues. */
  const NEW_CHAT_CALLS := [AddConversation("New Chat"), Navigate("/chat"), SetMobileOpen(false)]

  /** What a click on a conversation item issues. */
  function SelectCalls(id: string): seq<Call> {
    [SetActiveChatId(id), SetMobileOpen(false), Navigate("/chat")]
  }

  /** The menu trigger's update: `menuChatId === chat.id ? null : chat.id`. */
  function ToggledMenu(menu: Option<string>, id: string): (r: Option<string>)
    ensures r == Some(id) <==> menu != Some(id)
    ensures r != Some(id) ==> r == None
  {
    if menu == Some(id) then None else Some(id)
  }

  /** Pressing the same trigger twice returns to the previous state exactly when no other
      item's menu was open before. */
  lemma ToggleMenuTwice(menu: Option<string>, id: string)
    ensures ToggledMenu(ToggledMenu(menu, id), id) == menu <==> menu == None || menu == Some(id)
  {
  }

  /** The trigger of an item is rendered while the item is hovered or its menu is open. */
  predicate TriggerShown(hovered: Option<string>, menu: Option<string>, id: string) {
    hovered == Some(id) || menu == Some(id)
  }

  /** Whether the dropdown of item `c` is rendered: `menuChatId === chat.id`. */
  function MenuIsOn(menu: Option<string>): Conversation -> bool {
    (c: Conversation) => menu == Some(c.id)
  }

  /** No two listed conversations share an id. */
  predicate DistinctIds(cs: seq<Conversation>) {
    forall i, j :: 0 <= i < j < |cs| ==> cs[i].id != cs[j].id
  }

  /** When the listed conversations have distinct ids, at most one of them shows its dropdown. */
  lemma {:induction false} AtMostOneMenuOpen(cs: seq<Conversation>, menu: Option<string>)
    requires DistinctIds(cs)
    ensures |Filter(cs, MenuIsOn(menu))| <= 1
  {
    if cs != [] {
      var rest := cs[1..];
      assert DistinctIds(rest) by {
        forall i, j | 0 <= i < j < |rest| ensures rest[i].id != rest[j].id {
          assert rest[i] == cs[i + 1] && rest[j] == cs[j + 1];
        }
      }
      if MenuIsOn(menu)(cs[0]) {
        forall c | c in rest ensures !MenuIsOn(menu)(c) {
          var j :| 0 <= j < |rest| && rest[j] == c;
          assert cs[j + 1] == c;
        }
        FilterKeepsNone(rest, MenuIsOn(menu));
      } else {
        AtMostOneMenuOpen(rest, menu);
      }
    }
  }

  /** The sidebar's state cells and the calls it has made. Each method is one interaction; an
      interaction on a conversation item is offered only while the item is listed for the
      store's current `conversations`, and returns whether it was. */
  class Sidebar {
    var searchQuery: string
    var hoveredChatId: Option<string>
    var menuChatId: Option<string>
    var calls: seq<Call>

    constructor ()
      ensures searchQuery == "" && hoveredChatId == None && menuChatId == None && calls == []
    {
      searchQuery := "";
      hoveredChatId := None;
      menuChatId := None;
      calls := [];
    }

    /** Typing in the search box. */
    method ChangeSearch(query: string)
      modifies this
      ensures searchQuery == query
      ensures hoveredChatId == old(hoveredChatId) && menuChatId == old(menuChatId) && calls == old(calls)
    {
      searchQuery := query;
    }

    /** `handleNewChat`. */
    method NewChat()
      modifies this
      ensures calls == old(calls) + NEW_CHAT_CALLS
      ensures searchQuery == old(searchQuery) && hoveredChatId == old(hoveredChatId)
      ensures menuChatId == old(menuChatId)
    {
      calls := calls + [AddConversation("New Chat")];
      calls := calls + [Navigate("/chat")];
      calls := calls + [SetMobileOpen(false)];
    }

    /** A click on the item itself selects it, closes the mobile drawer and shows the chat. */
    method ClickItem(conversations: seq<Conversation>, chat: Conversation) returns (fired: bool)
      modifies this
      ensures fired == (chat in Listed(conversations, searchQuery))
      ensures calls == old(calls) + (if fired then SelectCalls(chat.id) else [])
      ensures searchQuery == old(searchQuery) && hoveredChatId == old(hoveredChatId)
      ensures menuChatId == old(menuChatId)
    {
      fired := chat in Listed(conversations, searchQuery);
      if fired {
        calls := calls + [SetActiveChatId(chat.id)];
        calls := calls + [SetMobileOpen(false)];
        calls := calls + [Navigate("/chat")];
      }
    }

    /** The pointer enters an item. */
    method MouseEnter(conversations: seq<Conversation>, chat: Conversation) returns (fired: bool)
      modifies this
      ensures fired == (chat in Listed(conversations, searchQuery))
      ensures hoveredChatId == if fired then Some(chat.id) else old(hoveredChatId)
      ensures searchQuery == old(searchQuery) && menuChatId == old(menuChatId) && calls == old(calls)
    {
      fired := chat in Listed(conversations, searchQuery);
      if fired {
        hoveredChatId := Some(chat.id);
      }
    }

    /** The pointer leaves an item: the hover is cleared, whichever item was hovered. */
    method MouseLeave(conversations: seq<Conversation>, chat: Conversation) returns (fired: bool)
      modifies this
      ensures fired == (chat in Listed(conversations, searchQuery))
      ensures hoveredChatId == if fired then None else old(hoveredChatId)
      ensures searchQuery == old(searchQuery) && menuChatId == old(menuChatId) && calls == old(calls)
    {
      fired := chat in Listed(conversations, searchQuery);
      if fired {
        hoveredChatId := None;
      }
    }

    /** The "more" trigger of an item, rendered while the item is hovered or its menu is open:
        opens the item's menu, or closes it when it was already open. */
    method ClickMenuTrigger(conversations: seq<Conversation>, chat: Conversation) returns (fired: bool)
      modifies this
      ensures fired == (chat in Listed(conversations, searchQuery)
        && TriggerShown(old(hoveredChatId), old(menuChatId), chat.id))
      ensures menuChatId == if fired then ToggledMenu(old(menuChatId), chat.id) else old(menuChatId)
      ensures fired ==> (menuChatId == Some(chat.id) <==> old(menuChatId) != Some(chat.id))
      ensures searchQuery == old(searchQuery) && hoveredChatId == old(hoveredChatId) && calls == old(calls)
    {
      fired := chat in Listed(conversations, searchQuery) && TriggerShown(hoveredChatId, menuChatId, chat.id);
      if fired {
        if menuChatId == Some(chat.id) {
          menuChatId := None;
        } else {
          menuChatId := Some(chat.id);
        }
      }
    }

    /** The Pin/Unpin entry of the open menu: toggles the pin of exactly this item and closes
        the menu. */
    method ClickPin(conversations: seq<Conversation>, chat: Conversation) returns (fired: bool)
      modifies this
      ensures fired == (chat in Listed(conversations, searchQuery) && old(menuChatId) == Some(chat.id))
      ensures calls == old(calls) + (if fired then [TogglePin(chat.id)] else [])
      ensures menuChatId == if fired then None else old(menuChatId)
      ensures searchQuery == old(searchQuery) && hoveredChatId == old(hoveredChatId)
    {
      fired := chat in Listed(conversations, searchQuery) && menuChatId == Some(chat.id);
      if fired {
        calls := calls + [TogglePin(chat.id)];
        menuChatId := None;
      }
    }

    /** The Delete entry of the open menu: deletes exactly this item and closes the menu. */
    method ClickDelete(conversations: seq<Conversation>, chat: Conversation) returns (fired: bool)
      modifies this
      ensures fired == (chat in Listed(conversations, searchQuery) && old(menuChatId) == Some(chat.id))
      ensures calls == old(calls) + (if fired then [DeleteConversation(chat.id)] else [])
      ensures menuChatId == if fired then None else old(menuChatId)
      ensures searchQuery == old(searchQuery) && hoveredChatId == old(hoveredChatId)
    {
      fired := chat in Listed(conversations, searchQuery) && menuChatId == Some(chat.id);
      if fired {
        calls := calls + [DeleteConversation(chat.id)];
        menuChatId := None;
      }
    }

    /** The full-screen layer behind an open menu: a click on it closes the menu. */
    method ClickOutside(conversations: seq<Conversation>, chat: Conversation) returns (fired: bool)
      modifies this
      ensures fired == (chat in Listed(conversations, searchQuery) && old(menuChatId) == Some(chat.id))
      ensures menuChatId == if fired then None else old(menuChatId)
      ensures searchQuery == old(searchQuery) && hoveredChatId == old(hoveredChatId) && calls == old(calls)
    {
      fired := chat in Listed(conversations, searchQuery) && menuChatId == Some(chat.id);
      if fired {
        menuChatId := None;
      }
    }

    /** The Rename, Summarize and Archive entries of the open menu. They have no handler of their
        own and do not stop the click, so it reaches the item's handler: the item is selected,
        the mobile drawer closes, the chat view is shown, and the menu stays open. */
    method ClickUnwiredEntry(conversations: seq<Conversation>, chat: Conversation) returns (fired: bool)
      modifies this
      ensures fired == (chat in Listed(conversations, searchQuery) && old(menuChatId) == Some(chat.id))
      ensures calls == old(calls) + (if fired then SelectCalls(chat.id) else [])
      ensures searchQuery == old(searchQuery) && hoveredChatId == old(hoveredChatId)
      ensures menuChatId == old(menuChatId)
    {
      fired := chat in Listed(conversations, searchQuery) && menuChatId == Some(chat.id);
      if fired {
        calls := calls + [SetActiveChatId(chat.id)];
        calls := calls + [SetMobileOpen(false)];
        calls := calls + [Navigate("/chat")];
      }
    }
  }
}
