/**
 * `TelegramBotCommandHandler`: the shopping-list bot's text-command handler.
 *
 * Its one piece of own state is `userState`, the mode record per user
 * (`{mode: "ADDING_ITEMS"}` while the user is adding items). Its collaborators
 * are the user service (module Users), the item store (a sequence of items
 * per internal user id) and the bot transport, whose `sendMessage` calls are
 * an append-only outbox. Each handler is one atomic step: the pure functions
 * below say what a step does to the whole `World`, and the class's methods
 * perform the same steps on mutable fields, and `State()` reads those
 * fields back as a World.
 */
module CommandHandler {
  import opened Wrappers
  import opened Text
  import opened Users
  import opened ListView

  /** The mode tag that makes free text count as new items. */
  const AddingItems: string := "ADDING_ITEMS"

  /** The record stored in `userState`: `{mode}`. */
  datatype UserMode = UserMode(mode: string)

  /** The reply-keyboard labels that the dispatcher compares incoming text against. */
  datatype Labels = Labels(
    viewList: string,
    addItems: string,
    cancelAddItems: string,
    deleteItems: string,
    markItemsBought: string)

  predicate Distinct(l: Labels) {
    var all := [l.viewList, l.addItems, l.cancelAddItems, l.deleteItems, l.markItemsBought];
    forall i, j | 0 <= i < j < |all| :: all[i] != all[j]
  }

  /** An incoming message: chat id, sender's id, and the text, which may be missing. */
  datatype Msg = Msg(chatId: int, fromId: TransportId, text: Option<string>)

  /** The options object passed with a reply, as a closed set of tags. */
  datatype Options =
    | MainMenu                // the main menu object itself
    | MarkdownMainMenu        // Markdown, with the main menu spread into the options
    | MarkdownNestedMainMenu  // Markdown, with the main menu under a key of its own name
    | AddItemsMenu            // the add-items menu object itself
    | MarkdownAddItemsMenu    // Markdown, with the add-items menu spread into the options
    | RemoveKeyboard          // `{reply_markup: {remove_keyboard: true}}`

  /** One `bot.sendMessage(chatId, text, options)` call. */
  datatype Message = Message(chatId: int, text: string, options: Options)

  const WelcomeText: string := "\U{1F6D2} *Welcome to Shopping List this.bot!*\n\nWhat would you like to do?"
  const StopText: string := "\U{1F44B} Bot stopped. Use /start to activate again."
  const AddItemsPrompt: string :=
    "\U{270F}\U{FE0F} Send an item name.\n\nYou can add multiple items one by one.\nPress \U{274C} Cancel when done."
  const AddModeExitedText: string := "\U{2705} Add mode exited."

  /** The confirmation of an added item; it echoes the text as received, untrimmed. */
  function AddedText(text: string): string {
    "\U{2705} *" + text + "* added.\n\nAdd another item or press \U{274C} Cancel."
  }

  /** Everything a handler reads or changes. */
  datatype World = World(
    userState: map<nat, UserMode>,
    users: Directory,
    items: map<InternalId, seq<Item>>,
    outbox: seq<Message>,
    resolverCalls: seq<TransportId>)

  /** `itemService.getItems(userId)`: the user's items in store order. */
  function ItemsOf(items: map<InternalId, seq<Item>>, id: InternalId): seq<Item> {
    if id in items then items[id] else []
  }

  /** `itemService.addItem(userId, name)`: a new, not yet bought item at the end of the user's list. */
  function AddItem(items: map<InternalId, seq<Item>>, id: InternalId, name: string): (r: map<InternalId, seq<Item>>)
    ensures ItemsOf(r, id) == ItemsOf(items, id) + [Item(name, false)]
    ensures forall u | u != id :: ItemsOf(r, u) == ItemsOf(items, u)
  {
    items[id := ItemsOf(items, id) + [Item(name, false)]]
  }

  /** `userService.getOrCreateUser(tid)`, recorded in the call log. */
  function Resolve(w: World, tid: TransportId): (r: (InternalId, World))
    ensures (r.0, r.1.users) == GetOrCreate(w.users, tid)
    ensures r.1 == w.(users := r.1.users, resolverCalls := w.resolverCalls + [tid])
  {
    var (id, users') := GetOrCreate(w.users, tid);
    (id, w.(users := users', resolverCalls := w.resolverCalls + [tid]))
  }

  function Send(w: World, m: Message): World {
    w.(outbox := w.outbox + [m])
  }

  predicate InAddingMode(userState: map<nat, UserMode>, tid: nat) {
    tid in userState && userState[tid].mode == AddingItems
  }

  /** Text that the free-text handler takes as an item: present, non-empty, and not a `/` command. */
  predicate AcceptsItemText(text: Option<string>) {
    text.Some? && text.value != "" && !StartsWith(text.value, "/")
  }

  // ---------------------------------------------------------------------------
  // Dispatch

  datatype Command = ViewList | AddItems | CancelAddItems | TextTyping

  /** The `switch (msg.text)`: strict equality with three labels, first match wins; all else is free text. */
  function Route(l: Labels, text: Option<string>): (c: Command)
    ensures c == ViewList <==> text == Some(l.viewList)
    ensures c == AddItems <==> text == Some(l.addItems) && text != Some(l.viewList)
    ensures c == CancelAddItems <==>
      text == Some(l.cancelAddItems) && text != Some(l.viewList) && text != Some(l.addItems)
    ensures c == TextTyping <==>
      text != Some(l.viewList) && text != Some(l.addItems) && text != Some(l.cancelAddItems)
  {
    if text == Some(l.viewList) then ViewList
    else if text == Some(l.addItems) then AddItems
    else if text == Some(l.cancelAddItems) then CancelAddItems
    else TextTyping
  }

  /** With distinct labels, each of the three labels reaches its own command, and the delete and mark-bought labels are free text. */
  lemma RouteDistinctLabels(l: Labels)
    requires Distinct(l)
    ensures Route(l, Some(l.viewList)) == ViewList
    ensures Route(l, Some(l.addItems)) == AddItems
    ensures Route(l, Some(l.cancelAddItems)) == CancelAddItems
    ensures Route(l, Some(l.deleteItems)) == TextTyping
    ensures Route(l, Some(l.markItemsBought)) == TextTyping
    ensures Route(l, None) == TextTyping
  {
    var all := [l.viewList, l.addItems, l.cancelAddItems, l.deleteItems, l.markItemsBought];
    assert all[0] != all[1] && all[0] != all[2] && all[1] != all[2];
    assert all[0] != all[3] && all[1] != all[3] && all[2] != all[3];
    assert all[0] != all[4] && all[1] != all[4] && all[2] != all[4];
  }

  // ---------------------------------------------------------------------------
  // The handlers, as steps on the World

  /** `handleStartCommand`: resolve the sender, then send the welcome text with the main menu. */
  function StartCommand(w: World, msg: Msg): World {
    var (_, w1) := Resolve(w, msg.fromId);
    Send(w1, Message(msg.chatId, WelcomeText, MarkdownMainMenu))
  }

  /** `handleStopCommand`: send the goodbye text and remove the keyboard. */
  function StopCommand(w: World, msg: Msg): World {
    Send(w, Message(msg.chatId, StopText, RemoveKeyboard))
  }

  /** `handleViewListCommand`: resolve the sender, read their items, and send the list or the empty notice. */
  function ViewListCommand(w: World, msg: Msg): World {
    var (id, w1) := Resolve(w, msg.fromId);
    var items := ItemsOf(w1.items, id);
    if |items| == 0 then Send(w1, Message(msg.chatId, EmptyListText, MainMenu))
    else Send(w1, Message(msg.chatId, ViewText(items), MarkdownNestedMainMenu))
  }

  /** `handleAddItemsCommand`: set the sender's mode, keyed by the Telegram id, and prompt for items. */
  function AddItemsCommand(w: World, msg: Msg): World {
    var w1 := w.(userState := w.userState[msg.fromId := UserMode(AddingItems)]);
    Send(w1, Message(msg.chatId, AddItemsPrompt, AddItemsMenu))
  }

  /** `handleTextTypingCommand`: in adding mode, store the trimmed text as an item and confirm it. */
  function TextTypingCommand(w: World, msg: Msg): World {
    if !InAddingMode(w.userState, msg.fromId) then w
    else if !AcceptsItemText(msg.text) then w
    else
      var text := msg.text.value;
      var (id, w1) := Resolve(w, msg.fromId);
      var w2 := w1.(items := AddItem(w1.items, id, Trim(text)));
      Send(w2, Message(msg.chatId, AddedText(text), MarkdownAddItemsMenu))
  }

  /** `handleCancelAddItemsCommand`: resolve the sender, delete the entry keyed by the RESOLVED id, confirm. */
  function CancelAddItemsCommand(w: World, msg: Msg): World {
    var (id, w1) := Resolve(w, msg.fromId);
    var w2 := w1.(userState := w1.userState - {id});
    Send(w2, Message(msg.chatId, AddModeExitedText, MainMenu))
  }

  /** `handleMessageCommand`: dispatch on the text. */
  function MessageCommand(l: Labels, w: World, msg: Msg): World {
    match Route(l, msg.text)
    case ViewList => ViewListCommand(w, msg)
    case AddItems => AddItemsCommand(w, msg)
    case CancelAddItems => CancelAddItemsCommand(w, msg)
    case TextTyping => TextTypingCommand(w, msg)
  }

  // ---------------------------------------------------------------------------
  // What the handlers promise

  /** Start resolves the sender exactly once, then sends one welcome message; no mode and no item changes. */
  lemma StartResolvesThenGreets(w: World, msg: Msg)
    ensures var w' := StartCommand(w, msg);
      && w'.users == GetOrCreate(w.users, msg.fromId).1
      && w'.resolverCalls == w.resolverCalls + [msg.fromId]
      && w'.outbox == w.outbox + [Message(msg.chatId, WelcomeText, MarkdownMainMenu)]
      && w'.userState == w.userState && w'.items == w.items
  {
  }

  /** Stop sends one keyboard-removing message and touches nothing else. */
  lemma StopOnlySends(w: World, msg: Msg)
    ensures var w' := StopCommand(w, msg);
      && w'.outbox == w.outbox + [Message(msg.chatId, StopText, RemoveKeyboard)]
      && w'.userState == w.userState && w'.users == w.users
      && w'.items == w.items && w'.resolverCalls == w.resolverCalls
  {
  }

  /** View-list sends exactly one message: the empty notice for no items, else the rendered list; nothing is stored. */
  lemma ViewListReplies(w: World, msg: Msg)
    ensures var id := GetOrCreate(w.users, msg.fromId).0;
      var items := ItemsOf(w.items, id);
      var w' := ViewListCommand(w, msg);
      && w'.users == GetOrCreate(w.users, msg.fromId).1
      && w'.resolverCalls == w.resolverCalls + [msg.fromId]
      && w'.userState == w.userState && w'.items == w.items
      && |w'.outbox| == |w.outbox| + 1 && w'.outbox[..|w.outbox|] == w.outbox
      && (|items| == 0 ==> w'.outbox[|w.outbox|] == Message(msg.chatId, EmptyListText, MainMenu))
      && (|items| > 0 ==> w'.outbox[|w.outbox|] == Message(msg.chatId, ViewText(items), MarkdownNestedMainMenu))
  {
  }

  /** Add-items puts the sender in adding mode, leaves every other user's entry alone, and sends one prompt. */
  lemma AddItemsEntersAddingMode(w: World, msg: Msg)
    ensures var w' := AddItemsCommand(w, msg);
      && InAddingMode(w'.userState, msg.fromId)
      && w'.userState.Keys == w.userState.Keys + {msg.fromId}
      && (forall u | u in w.userState && u != msg.fromId :: w'.userState[u] == w.userState[u])
      && w'.outbox == w.outbox + [Message(msg.chatId, AddItemsPrompt, AddItemsMenu)]
      && w'.users == w.users && w'.items == w.items && w'.resolverCalls == w.resolverCalls
  {
  }

  /** Outside adding mode, or for missing, empty or `/`-prefixed text, free text changes nothing and sends nothing. */
  lemma TextTypingIgnored(w: World, msg: Msg)
    requires !InAddingMode(w.userState, msg.fromId) || !AcceptsItemText(msg.text)
    ensures TextTypingCommand(w, msg) == w
  {
  }

  /**
   * In adding mode, accepted text resolves the sender once, adds exactly one
   * item named by the trimmed text to that user's list, keeps the mode, and
   * sends one confirmation echoing the untrimmed text.
   */
  lemma TextTypingAddsItem(w: World, msg: Msg)
    requires InAddingMode(w.userState, msg.fromId) && AcceptsItemText(msg.text)
    ensures var (id, users') := GetOrCreate(w.users, msg.fromId);
      var w' := TextTypingCommand(w, msg);
      && ItemsOf(w'.items, id) == ItemsOf(w.items, id) + [Item(Trim(msg.text.value), false)]
      && (forall u | u != id :: ItemsOf(w'.items, u) == ItemsOf(w.items, u))
      && w'.userState == w.userState
      && w'.users == users' && w'.resolverCalls == w.resolverCalls + [msg.fromId]
      && w'.outbox == w.outbox + [Message(msg.chatId, AddedText(msg.text.value), MarkdownAddItemsMenu)]
  {
  }

  /** Text of white space only passes both guards, so an item with an empty name is stored. */
  lemma BlankTextAddsEmptyName(w: World, msg: Msg)
    requires InAddingMode(w.userState, msg.fromId) && AcceptsItemText(msg.text) && AllSpace(msg.text.value)
    ensures var id := GetOrCreate(w.users, msg.fromId).0;
      ItemsOf(TextTypingCommand(w, msg).items, id) == ItemsOf(w.items, id) + [Item("", false)]
  {
    TrimAllSpace(msg.text.value);
    TextTypingAddsItem(w, msg);
  }

  /** Free text sends a reply exactly when the sender is in adding mode and the text is accepted. */
  lemma TextTypingRepliesIff(w: World, msg: Msg)
    ensures TextTypingCommand(w, msg) != w <==> InAddingMode(w.userState, msg.fromId) && AcceptsItemText(msg.text)
    ensures |TextTypingCommand(w, msg).outbox| > |w.outbox| <==>
      InAddingMode(w.userState, msg.fromId) && AcceptsItemText(msg.text)
  {
    if InAddingMode(w.userState, msg.fromId) && AcceptsItemText(msg.text) {
      assert |TextTypingCommand(w, msg).outbox| == |w.outbox| + 1;
    }
  }

  /** Because the mode stays on, two accepted texts in a row add two items, in order, to the same list. */
  lemma {:induction false} TypingTwiceAddsTwo(w: World, m1: Msg, m2: Msg)
    requires m1.fromId == m2.fromId
    requires InAddingMode(w.userState, m1.fromId) && AcceptsItemText(m1.text) && AcceptsItemText(m2.text)
    ensures var id := GetOrCreate(w.users, m1.fromId).0;
      var w2 := TextTypingCommand(TextTypingCommand(w, m1), m2);
      && ItemsOf(w2.items, id) == ItemsOf(w.items, id) + [Item(Trim(m1.text.value), false), Item(Trim(m2.text.value), false)]
      && InAddingMode(w2.userState, m1.fromId)
  {
    var id := GetOrCreate(w.users, m1.fromId).0;
    var w1 := TextTypingCommand(w, m1);
    TextTypingAddsItem(w, m1);
    GetOrCreateIdempotent(w.users, m1.fromId);
    TextTypingAddsItem(w1, m2);
  }

  /** Cancel deletes the entry under the resolved internal id, whatever the Telegram id, and always confirms. */
  lemma CancelDeletesResolvedKey(w: World, msg: Msg)
    ensures var (id, users') := GetOrCreate(w.users, msg.fromId);
      var w' := CancelAddItemsCommand(w, msg);
      && w'.userState == w.userState - {id}
      && w'.users == users' && w'.resolverCalls == w.resolverCalls + [msg.fromId]
      && w'.items == w.items
      && w'.outbox == w.outbox + [Message(msg.chatId, AddModeExitedText, MainMenu)]
  {
  }

  /**
   * After add-items then cancel by the same sender, adding mode is over
   * exactly when the resolver maps the sender's Telegram id to the same
   * number: the mode is set under one key and deleted under the other.
   */
  lemma AddThenCancelExitsIffIdsAgree(w: World, m1: Msg, m2: Msg)
    requires m1.fromId == m2.fromId
    ensures var w2 := CancelAddItemsCommand(AddItemsCommand(w, m1), m2);
      InAddingMode(w2.userState, m1.fromId) <==> GetOrCreate(w.users, m1.fromId).0 != m1.fromId
  {
  }

  /** So when the ids differ, text typed after "cancel" is still stored as an item. */
  lemma TextAfterCancelStillAdded(w: World, m1: Msg, m2: Msg, m3: Msg)
    requires m1.fromId == m2.fromId == m3.fromId
    requires GetOrCreate(w.users, m1.fromId).0 != m1.fromId
    requires AcceptsItemText(m3.text)
    ensures var id := GetOrCreate(w.users, m1.fromId).0;
      var w2 := CancelAddItemsCommand(AddItemsCommand(w, m1), m2);
      var w3 := TextTypingCommand(w2, m3);
      ItemsOf(w3.items, id) == ItemsOf(w2.items, id) + [Item(Trim(m3.text.value), false)]
  {
    var id := GetOrCreate(w.users, m1.fromId).0;
    var w2 := CancelAddItemsCommand(AddItemsCommand(w, m1), m2);
    AddThenCancelExitsIffIdsAgree(w, m1, m2);
    GetOrCreateIdempotent(w.users, m1.fromId);
    TextTypingAddsItem(w2, m3);
  }

  /** The message handler runs exactly the handler its route names. */
  lemma MessageCommandDispatch(l: Labels, w: World, msg: Msg)
    ensures msg.text == Some(l.viewList) ==> MessageCommand(l, w, msg) == ViewListCommand(w, msg)
    ensures msg.text == Some(l.addItems) && msg.text != Some(l.viewList) ==>
      MessageCommand(l, w, msg) == AddItemsCommand(w, msg)
    ensures msg.text == Some(l.cancelAddItems) && msg.text != Some(l.viewList) && msg.text != Some(l.addItems) ==>
      MessageCommand(l, w, msg) == CancelAddItemsCommand(w, msg)
    ensures msg.text != Some(l.viewList) && msg.text != Some(l.addItems) && msg.text != Some(l.cancelAddItems) ==>
      MessageCommand(l, w, msg) == TextTypingCommand(w, msg)
  {
  }

  /**
   * The delete and mark-bought labels reach the free-text handler: outside
   * adding mode they do nothing at all, and in adding mode a label that is
   * non-empty and not a `/` command is stored, trimmed, as an item.
   */
  lemma OtherLabelsAreFreeText(l: Labels, w: World, msg: Msg)
    requires Distinct(l)
    requires msg.text == Some(l.deleteItems) || msg.text == Some(l.markItemsBought)
    ensures MessageCommand(l, w, msg) == TextTypingCommand(w, msg)
    ensures !InAddingMode(w.userState, msg.fromId) ==> MessageCommand(l, w, msg) == w
    ensures InAddingMode(w.userState, msg.fromId) && AcceptsItemText(msg.text) ==>
      var id := GetOrCreate(w.users, msg.fromId).0;
      ItemsOf(MessageCommand(l, w, msg).items, id) == ItemsOf(w.items, id) + [Item(Trim(msg.text.value), false)]
  {
    RouteDistinctLabels(l);
    if InAddingMode(w.userState, msg.fromId) && AcceptsItemText(msg.text) {
      TextTypingAddsItem(w, msg);
    }
  }

  // ---------------------------------------------------------------------------
  // The handler object

  class TelegramBotCommandHandler {
    const labels: Labels
    var userState: map<nat, UserMode>
    var users: Directory
    var items: map<InternalId, seq<Item>>
    var outbox: seq<Message>
    var resolverCalls: seq<TransportId>

    function State(): World
      reads this
    {
      World(userState, users, items, outbox, resolverCalls)
    }

    /** A fresh handler: no user is in any mode and nothing has been sent. */
    constructor (labels: Labels, users: Directory, items: map<InternalId, seq<Item>>)
      ensures this.labels == labels
      ensures State() == World(map[], users, items, [], [])
    {
      this.labels := labels;
      this.users := users;
      this.items := items;
      userState := map[];
      outbox := [];
      resolverCalls := [];
    }

    /** `bot.sendMessage(chatId, text, options)`. */
    method SendMessage(chatId: int, text: string, options: Options)
      modifies this
      ensures State() == Send(old(State()), Message(chatId, text, options))
    {
      outbox := outbox + [Message(chatId, text, options)];
    }

    /** `userService.getOrCreateUser(tid)`. */
    method GetOrCreateUser(tid: TransportId) returns (id: InternalId)
      modifies this
      ensures (id, State()) == Resolve(old(State()), tid)
    {
      var r := GetOrCreate(users, tid);
      id, users := r.0, r.1;
      resolverCalls := resolverCalls + [tid];
    }

    /** `itemService.getItems(userId)`. */
    method GetItems(userId: InternalId) returns (list: seq<Item>)
      ensures list == ItemsOf(items, userId)
    {
      list := if userId in items then items[userId] else [];
    }

    /** `itemService.addItem(userId, name)`. */
    method AddItemToStore(userId: InternalId, name: string)
      modifies this
      ensures State() == old(State()).(items := AddItem(old(items), userId, name))
    {
      items := AddItem(items, userId, name);
    }

    method HandleStartCommand(msg: Msg)
      modifies this
      ensures State() == StartCommand(old(State()), msg)
    {
      var _ := GetOrCreateUser(msg.fromId);
      SendMessage(msg.chatId, WelcomeText, MarkdownMainMenu);
    }

    method HandleStopCommand(msg: Msg)
      modifies this
      ensures State() == StopCommand(old(State()), msg)
    {
      SendMessage(msg.chatId, StopText, RemoveKeyboard);
    }

    method HandleMessageCommand(msg: Msg)
      modifies this
      ensures State() == MessageCommand(labels, old(State()), msg)
    {
      match Route(labels, msg.text)
      case ViewList => HandleViewListCommand(msg);
      case AddItems => HandleAddItemsCommand(msg);
      case CancelAddItems => HandleCancelAddItemsCommand(msg);
      case TextTyping => HandleTextTypingCommand(msg);
    }

    method HandleViewListCommand(msg: Msg)
      modifies this
      ensures State() == ViewListCommand(old(State()), msg)
    {
      var userId := GetOrCreateUser(msg.fromId);
      var list := GetItems(userId);
      if |list| == 0 {
        SendMessage(msg.chatId, EmptyListText, MainMenu);
      } else {
        SendMessage(msg.chatId, ViewText(list), MarkdownNestedMainMenu);
      }
    }

    method HandleAddItemsCommand(msg: Msg)
      modifies this
      ensures State() == AddItemsCommand(old(State()), msg)
      ensures userState == old(userState)[msg.fromId := UserMode(AddingItems)]
    {
      userState := userState[msg.fromId := UserMode(AddingItems)];
      SendMessage(msg.chatId, AddItemsPrompt, AddItemsMenu);
    }

    method HandleTextTypingCommand(msg: Msg)
      modifies this
      ensures State() == TextTypingCommand(old(State()), msg)
      ensures userState == old(userState)
    {
      var state := if msg.fromId in userState then Some(userState[msg.fromId]) else None;
      if !(state.Some? && state.value.mode == AddingItems) {
        return;
      }
      if msg.text.None? || msg.text.value == "" || StartsWith(msg.text.value, "/") {
        return;
      }
      var text := msg.text.value;
      var userId := GetOrCreateUser(msg.fromId);
      AddItemToStore(userId, Trim(text));
      SendMessage(msg.chatId, AddedText(text), MarkdownAddItemsMenu);
    }

    method HandleCancelAddItemsCommand(msg: Msg)
      modifies this
      ensures State() == CancelAddItemsCommand(old(State()), msg)
    {
      var userId := GetOrCreateUser(msg.fromId);
      userState := userState - {userId};
      SendMessage(msg.chatId, AddModeExitedText, MainMenu);
    }
  }
}
