/** `AppStateManager`: the conversation, navigation and endpoint keys of one browser
    session. A key the session does not hold yet is `None`. */
module AppState {
  import opened Wrappers
  import opened Messages
  import ContextWindow
  import Endpoints
  import Env

  const NEW_CONVERSATION := "New Conversation"
  const CHAT_PAGE := "chat"

  /** `if key not in state: state.key = default`. */
  function InitKey<T>(current: Option<T>, default: T): (r: Option<T>)
    ensures r.Some?
    ensures current.Some? ==> r == current
  {
    if current.Some? then current else Some(default)
  }

  /** Setting a key a second time keeps the first value, whatever the second default. */
  lemma InitKeyIdempotent<T>(current: Option<T>, d1: T, d2: T)
    ensures InitKey(InitKey(current, d1), d2) == InitKey(current, d1)
  {
  }

  /** The title trigger: the title is still the placeholder and a full exchange exists. */
  predicate IsNewConversation(title: string, msgs: seq<Message>) {
    title == NEW_CONVERSATION && |msgs| >= 2
  }

  /** Starting from a cleared conversation, the title trigger first holds right after
      the first prompt and its reply, and not after the prompt alone. */
  lemma TitleAfterFirstExchange(prompt: string, reply: string)
    ensures !IsNewConversation(NEW_CONVERSATION, [])
    ensures !IsNewConversation(NEW_CONVERSATION, [Message(USER, prompt)])
    ensures IsNewConversation(NEW_CONVERSATION, [Message(USER, prompt), Message(ASSISTANT, reply)])
  {
  }

  class AppStateManager {
    var messages: Option<seq<Message>>
    var convId: Option<string>
    var chatTitle: Option<string>
    var currentPage: Option<string>
    var selectedEndpoint: Option<string>

    /** A manager over a session that holds none of its keys yet. */
    constructor ()
      ensures messages.None? && convId.None? && chatTitle.None?
      ensures currentPage.None? && selectedEndpoint.None?
    {
      messages := None;
      convId := None;
      chatTitle := None;
      currentPage := None;
      selectedEndpoint := None;
    }

    predicate Initialized()
      reads this
    {
      messages.Some? && convId.Some? && chatTitle.Some? && currentPage.Some?
      && selectedEndpoint.Some?
    }

    /** `initialize`: every absent key gets its default, present keys are kept. The
        default endpoint is the one `get_available_endpoints` puts at `default_idx`;
        `freshId` is the identifier `uuid4` would produce. */
    method Initialize(freshId: string, cfg: Endpoints.Config)
      modifies this
      ensures Initialized()
      ensures messages == InitKey(old(messages), [])
      ensures convId == InitKey(old(convId), freshId)
      ensures chatTitle == InitKey(old(chatTitle), NEW_CONVERSATION)
      ensures currentPage == InitKey(old(currentPage), CHAT_PAGE)
      ensures selectedEndpoint == InitKey(old(selectedEndpoint),
        Endpoints.SelectedByDefault(cfg, Endpoints.NOT_CONFIGURED))
      ensures old(Initialized()) ==>
        messages == old(messages) && convId == old(convId) && chatTitle == old(chatTitle)
        && currentPage == old(currentPage) && selectedEndpoint == old(selectedEndpoint)
    {
      InitConversationState(freshId);
      InitNavigationState();
      InitModelEndpoints(cfg);
    }

    /** `_init_conversation_state`. */
    method InitConversationState(freshId: string)
      modifies this
      ensures messages == InitKey(old(messages), [])
      ensures convId == InitKey(old(convId), freshId)
      ensures chatTitle == InitKey(old(chatTitle), NEW_CONVERSATION)
      ensures currentPage == old(currentPage) && selectedEndpoint == old(selectedEndpoint)
    {
      if messages.None? {
        messages := Some([]);
      }
      if convId.None? {
        convId := Some(freshId);
      }
      if chatTitle.None? {
        chatTitle := Some(NEW_CONVERSATION);
      }
    }

    /** `_init_navigation_state`. */
    method InitNavigationState()
      modifies this
      ensures currentPage == InitKey(old(currentPage), CHAT_PAGE)
      ensures messages == old(messages) && convId == old(convId) && chatTitle == old(chatTitle)
      ensures selectedEndpoint == old(selectedEndpoint)
    {
      if currentPage.None? {
        currentPage := Some(CHAT_PAGE);
      }
    }

    /** `_init_model_endpoints`: the endpoint at `default_idx` of a fresh
        `get_available_endpoints` call. That list is never empty, so the `""` arm of the
        source's conditional is never taken. */
    method InitModelEndpoints(cfg: Endpoints.Config)
      modifies this
      ensures old(selectedEndpoint).Some? ==> selectedEndpoint == old(selectedEndpoint)
      ensures old(selectedEndpoint).None? ==>
        selectedEndpoint == Some(Endpoints.SelectedByDefault(cfg, Endpoints.NOT_CONFIGURED))
      ensures messages == old(messages) && convId == old(convId) && chatTitle == old(chatTitle)
      ensures currentPage == old(currentPage)
    {
      if selectedEndpoint.None? {
        var id := Endpoints.DefaultSelectedId(cfg, Endpoints.NOT_CONFIGURED);
        selectedEndpoint := Some(id);
      }
    }

    /** `set_current_page` and `navigate_to` (the page rerun is not modelled). */
    method NavigateTo(page: string)
      modifies this
      ensures currentPage == Some(page)
      ensures messages == old(messages) && convId == old(convId) && chatTitle == old(chatTitle)
      ensures selectedEndpoint == old(selectedEndpoint)
    {
      currentPage := Some(page);
    }

    /** `add_message`: exactly one message goes on the end; nothing else changes. */
    method AddMessage(role: string, content: string)
      requires messages.Some?
      modifies this
      ensures messages == Some(old(messages).value + [Message(role, content)])
      ensures convId == old(convId) && chatTitle == old(chatTitle)
      ensures currentPage == old(currentPage) && selectedEndpoint == old(selectedEndpoint)
    {
      messages := Some(messages.value + [Message(role, content)]);
    }

    /** `clear_conversation`: no messages, the placeholder title and the fresh id. */
    method ClearConversation(freshId: string)
      modifies this
      ensures messages == Some([]) && convId == Some(freshId)
      ensures chatTitle == Some(NEW_CONVERSATION)
      ensures currentPage == old(currentPage) && selectedEndpoint == old(selectedEndpoint)
      ensures !ShouldGenerateResponse() && !IsNewConversation(chatTitle.value, messages.value)
    {
      messages := Some([]);
      convId := Some(freshId);
      chatTitle := Some(NEW_CONVERSATION);
    }

    /** `load_conversation`: the stored conversation becomes current and the chat page
        is shown. */
    method LoadConversation(id: string, title: string, msgs: seq<Message>)
      modifies this
      ensures convId == Some(id) && chatTitle == Some(title) && messages == Some(msgs)
      ensures currentPage == Some(CHAT_PAGE)
      ensures selectedEndpoint == old(selectedEndpoint)
    {
      convId := Some(id);
      chatTitle := Some(title);
      messages := Some(msgs);
      NavigateTo(CHAT_PAGE);
    }

    method SetConversationId(id: string)
      modifies this
      ensures convId == Some(id)
      ensures messages == old(messages) && chatTitle == old(chatTitle)
      ensures currentPage == old(currentPage) && selectedEndpoint == old(selectedEndpoint)
    {
      convId := Some(id);
    }

    method SetChatTitle(title: string)
      modifies this
      ensures chatTitle == Some(title)
      ensures messages == old(messages) && convId == old(convId)
      ensures currentPage == old(currentPage) && selectedEndpoint == old(selectedEndpoint)
    {
      chatTitle := Some(title);
    }

    method SetSelectedEndpoint(endpoint: string)
      modifies this
      ensures selectedEndpoint == Some(endpoint)
      ensures messages == old(messages) && convId == old(convId)
      ensures chatTitle == old(chatTitle) && currentPage == old(currentPage)
    {
      selectedEndpoint := Some(endpoint);
    }

    /** `should_generate_response`. */
    predicate ShouldGenerateResponse()
      reads this
    {
      messages.Some? && ContextWindow.ShouldReply(messages.value)
    }

    /** One exchange driven through the manager: after the prompt the assistant is due
        to reply, after the reply it is not, and the conversation keeps alternating. */
    method Exchange(prompt: string, reply: string)
      requires messages.Some? && ContextWindow.Alternating(messages.value)
      requires |messages.value| % 2 == 0
      modifies this
      ensures messages == Some(old(messages).value
        + [Message(USER, prompt), Message(ASSISTANT, reply)])
      ensures ContextWindow.Alternating(messages.value) && !ShouldGenerateResponse()
      ensures convId == old(convId) && chatTitle == old(chatTitle)
      ensures currentPage == old(currentPage) && selectedEndpoint == old(selectedEndpoint)
    {
      ContextWindow.TurnCycle(messages.value, prompt, reply);
      AddMessage(USER, prompt);
      assert ShouldGenerateResponse();
      AddMessage(ASSISTANT, reply);
      assert old(messages).value + [Message(USER, prompt)] + [Message(ASSISTANT, reply)]
        == old(messages).value + [Message(USER, prompt), Message(ASSISTANT, reply)];
    }
  }
}
