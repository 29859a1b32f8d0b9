/** The chat store (src/store/slices/chatSlice.ts): the transcript fetched
    from the backend, a loading flag and an error. Both thunks end with a
    history fetch whose result replaces the transcript. */
module ChatSlice {
  import opened Wrappers
  import opened Text
  import opened Domain
  import opened Api

  const FailedToSend := "Failed to send message"
  const FailedToGetHistory := ("Failed to get chat " + "history")

  /** `ChatService.getChatHistory(patientId)` asks for this endpoint. */
  function HistoryEndpoint(patientId: string): string {
    "/chat/" + patientId + "/history"
  }

  /** The body of `sendMessage(chatRequest)`: the post to '/chat' comes first;
      the history of the same patient is fetched only if the post did not
      throw (an `undefined` answer after a 401 does not throw), and the
      history fetch settles the thunk. */
  method SendMessageThunk(browser: Browser, chatRequest: ChatRequest,
                          fetchSend: Request -> Fetched<ChatResponse>,
                          fetchHistory: Request -> Fetched<seq<ChatMessage>>)
    returns (posted: Request, historyRequest: Option<Request>, settled: Settled<Option<seq<ChatMessage>>>)
    modifies browser
    ensures posted == BuildRequest(old(browser.storage), "/chat", Post(ChatRequestJson(chatRequest)))
    ensures historyRequest.None? <==>
      fetchSend(posted).NetworkError? ||
      (!IsOk(fetchSend(posted).status) && fetchSend(posted).status != 401)
    ensures historyRequest.None? ==> settled.Rejected? && unchanged(browser)
    ensures fetchSend(posted).NetworkError? ==> settled == Rejected(fetchSend(posted).reason)
    ensures fetchSend(posted).Response? && !IsOk(fetchSend(posted).status) && fetchSend(posted).status != 401 ==>
      settled == Rejected(ApiErrorMessage(fetchSend(posted).status, fetchSend(posted).statusText))
    ensures historyRequest.Some? ==>
      historyRequest.value == BuildRequest(
        if fetchSend(posted).status == 401 then old(browser.storage) - {TokenKey} else old(browser.storage),
        HistoryEndpoint(chatRequest.patientId), Get)
    ensures historyRequest.Some? ==>
      historyRequest.value.url == ApiBaseUrl + HistoryEndpoint(chatRequest.patientId) &&
      historyRequest.value.verb == "GET"
    ensures historyRequest.Some? && fetchHistory(historyRequest.value).Response? &&
            IsOk(fetchHistory(historyRequest.value).status) ==>
      settled == Fulfilled(Some(fetchHistory(historyRequest.value).body))
    ensures historyRequest.Some? && fetchHistory(historyRequest.value).Response? &&
            fetchHistory(historyRequest.value).status == 401 ==>
      settled == Fulfilled(None) && browser.location == "/" && TokenKey !in browser.storage
    ensures historyRequest.Some? && fetchHistory(historyRequest.value).Response? &&
            !IsOk(fetchHistory(historyRequest.value).status) && fetchHistory(historyRequest.value).status != 401 ==>
      settled == Rejected(ApiErrorMessage(fetchHistory(historyRequest.value).status,
                                          fetchHistory(historyRequest.value).statusText))
    ensures historyRequest.Some? && fetchHistory(historyRequest.value).NetworkError? ==>
      settled == Rejected(fetchHistory(historyRequest.value).reason)
    ensures historyRequest.Some? ==>
      var revoked := (fetchSend(posted).Response? && fetchSend(posted).status == 401) ||
        (fetchHistory(historyRequest.value).Response? && fetchHistory(historyRequest.value).status == 401);
      browser.storage == (if revoked then old(browser.storage) - {TokenKey} else old(browser.storage)) &&
      browser.location == (if revoked then "/" else old(browser.location))
  {
    var sent;
    posted, sent := ApiRequest(browser, "/chat", Post(ChatRequestJson(chatRequest)), fetchSend);
    if sent.Thrown? {
      historyRequest, settled := None, Rejected(sent.message);
      return;
    }
    var request, history := ApiRequest(browser, HistoryEndpoint(chatRequest.patientId), Get, fetchHistory);
    historyRequest, settled := Some(request), SettleWith(history);
  }

  /** The body of `getChatHistory(patientId)`: one GET and its four outcomes. */
  method GetChatHistoryThunk(browser: Browser, patientId: string,
                             fetch: Request -> Fetched<seq<ChatMessage>>)
    returns (sent: Request, settled: Settled<Option<seq<ChatMessage>>>)
    modifies browser
    ensures sent == BuildRequest(old(browser.storage), HistoryEndpoint(patientId), Get)
    ensures fetch(sent).Response? && IsOk(fetch(sent).status) ==> settled == Fulfilled(Some(fetch(sent).body))
    ensures fetch(sent).NetworkError? ==> settled == Rejected(fetch(sent).reason)
    ensures fetch(sent).Response? && fetch(sent).status == 401 ==>
      settled == Fulfilled(None) && browser.location == "/" && browser.storage == old(browser.storage) - {TokenKey}
    ensures fetch(sent).Response? && !IsOk(fetch(sent).status) && fetch(sent).status != 401 ==>
      settled == Rejected(ApiErrorMessage(fetch(sent).status, fetch(sent).statusText))
    ensures settled != Fulfilled(None) ==> unchanged(browser)
  {
    var result;
    sent, result := ApiRequest(browser, HistoryEndpoint(patientId), Get, fetch);
    settled := SettleWith(result);
  }

  class ChatStore {
    /** The transcript; None is `undefined`, the payload a history fetch
        answered with 401 fulfils with. */
    var messages: Option<seq<ChatMessage>>
    var isLoading: bool
    var error: Option<string>

    constructor ()
      ensures messages == Some([]) && !isLoading && error == None
    {
      messages, isLoading, error := Some([]), false, None;
    }

    method ClearMessages()
      modifies this
      ensures messages == Some([]) && isLoading == old(isLoading) && error == old(error)
    {
      messages := Some([]);
    }

    method ClearError()
      modifies this
      ensures error == None && messages == old(messages) && isLoading == old(isLoading)
    {
      error := None;
    }

    /** The pending case of both thunks. */
    method Pending()
      modifies this
      ensures isLoading && error == None && messages == old(messages)
    {
      isLoading := true;
      error := None;
    }

    /** The fulfilled case of both thunks: the payload replaces the
        transcript, `undefined` included; nothing is appended. */
    method Fulfilled(history: Option<seq<ChatMessage>>)
      modifies this
      ensures !isLoading && error == None && messages == history
    {
      isLoading := false;
      messages := history;
      error := None;
    }

    /** The rejected case of both thunks, each with its own default. */
    method Rejected(message: string, default: string)
      modifies this
      ensures !isLoading && error == Some(OrElse(message, default)) && messages == old(messages)
    {
      isLoading := false;
      error := Some(OrElse(message, default));
    }
  }

  /** Applies how a thunk settled: a fulfilled payload, `undefined` or not,
      becomes the transcript; a rejection keeps it and records the message. */
  method Settle(store: ChatStore, settled: Settled<Option<seq<ChatMessage>>>, default: string)
    modifies store
    ensures settled.Fulfilled? ==>
      store.messages == settled.payload && store.error == None && !store.isLoading
    ensures settled.Rejected? ==>
      store.messages == old(store.messages) && store.error == Some(OrElse(settled.message, default)) &&
      !store.isLoading
  {
    match settled
    case Fulfilled(history) => store.Fulfilled(history);
    case Rejected(message) => store.Rejected(message, default);
  }

  /** `dispatch(sendMessage(chatRequest))`: the store after each outcome of
      the post and of the history fetch that follows it. */
  method SendMessage(store: ChatStore, browser: Browser, chatRequest: ChatRequest,
                     fetchSend: Request -> Fetched<ChatResponse>,
                     fetchHistory: Request -> Fetched<seq<ChatMessage>>)
    returns (posted: Request, historyRequest: Option<Request>)
    modifies store, browser
    ensures posted == BuildRequest(old(browser.storage), "/chat", Post(ChatRequestJson(chatRequest)))
    ensures !store.isLoading
    ensures historyRequest.None? ==> store.messages == old(store.messages) && store.error.Some?
    ensures fetchSend(posted).NetworkError? ==>
      store.error == Some(OrElse(fetchSend(posted).reason, FailedToSend))
    ensures fetchSend(posted).Response? && !IsOk(fetchSend(posted).status) && fetchSend(posted).status != 401 ==>
      store.error == Some(ApiErrorMessage(fetchSend(posted).status, fetchSend(posted).statusText))
    ensures historyRequest.Some? ==> historyRequest.value.url == ApiBaseUrl + HistoryEndpoint(chatRequest.patientId)
    ensures historyRequest.Some? && fetchHistory(historyRequest.value).Response? &&
            IsOk(fetchHistory(historyRequest.value).status) ==>
      store.messages == Some(fetchHistory(historyRequest.value).body) && store.error == None
    ensures historyRequest.Some? && fetchHistory(historyRequest.value).Response? &&
            fetchHistory(historyRequest.value).status == 401 ==>
      store.messages == None && store.error == None && browser.location == "/"
    ensures historyRequest.Some? && fetchHistory(historyRequest.value).Response? &&
            !IsOk(fetchHistory(historyRequest.value).status) && fetchHistory(historyRequest.value).status != 401 ==>
      store.messages == old(store.messages) &&
      store.error == Some(ApiErrorMessage(fetchHistory(historyRequest.value).status,
                                          fetchHistory(historyRequest.value).statusText))
    ensures historyRequest.Some? && fetchHistory(historyRequest.value).NetworkError? ==>
      store.messages == old(store.messages) &&
      store.error == Some(OrElse(fetchHistory(historyRequest.value).reason, FailedToSend))
    ensures historyRequest.None? ==> unchanged(browser)
    ensures historyRequest.Some? ==>
      var revoked := (fetchSend(posted).Response? && fetchSend(posted).status == 401) ||
        (fetchHistory(historyRequest.value).Response? && fetchHistory(historyRequest.value).status == 401);
      browser.storage == (if revoked then old(browser.storage) - {TokenKey} else old(browser.storage)) &&
      browser.location == (if revoked then "/" else old(browser.location))
  {
    store.Pending();
    var settled;
    posted, historyRequest, settled := SendMessageThunk(browser, chatRequest, fetchSend, fetchHistory);
    Settle(store, settled, FailedToSend);
  }

  /** `dispatch(getChatHistory(patientId))`: the store after each of the
      four outcomes of the fetch. */
  method GetChatHistory(store: ChatStore, browser: Browser, patientId: string,
                        fetch: Request -> Fetched<seq<ChatMessage>>)
    returns (sent: Request)
    modifies store, browser
    ensures sent == BuildRequest(old(browser.storage), HistoryEndpoint(patientId), Get)
    ensures sent.url == ApiBaseUrl + HistoryEndpoint(patientId)
    ensures !store.isLoading
    ensures fetch(sent).Response? && IsOk(fetch(sent).status) ==>
      store.messages == Some(fetch(sent).body) && store.error == None
    ensures fetch(sent).Response? && fetch(sent).status == 401 ==>
      store.messages == None && store.error == None
      && browser.location == "/" && browser.storage == old(browser.storage) - {TokenKey}
    ensures fetch(sent).Response? && !IsOk(fetch(sent).status) && fetch(sent).status != 401 ==>
      store.messages == old(store.messages) &&
      store.error == Some(ApiErrorMessage(fetch(sent).status, fetch(sent).statusText))
    ensures fetch(sent).NetworkError? ==>
      store.messages == old(store.messages) && store.error == Some(OrElse(fetch(sent).reason, FailedToGetHistory))
    ensures !(fetch(sent).Response? && fetch(sent).status == 401) ==> unchanged(browser)
  {
    store.Pending();
    var settled;
    sent, settled := GetChatHistoryThunk(browser, patientId, fetch);
    Settle(store, settled, FailedToGetHistory);
  }
}
