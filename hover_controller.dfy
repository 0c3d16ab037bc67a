/**
 * The hover-triggered query lifecycle of the content script: the busy flag,
 * the last-triggered element, the floating box and the store they use.
 * The awaited steps of the mouse-over handler run here as sequential steps:
 * Begin (the gate and the loading box), RequireApiKey (the missing-key abort)
 * and Complete (the outcome of the request).
 */
module HoverController {
  import opened Optional
  import opened Settings
  import opened FloatingBox

  /** The identity of a page element, as compared by `===`. */
  type ElementId = nat

  /** The element a mouse-over event reports as its target, with its `innerText`. */
  datatype Element = Element(id: ElementId, innerText: string)

  /** What the awaited request produced: a response with `ok` and its answer text, a response without `ok`, or a thrown error. */
  datatype FetchOutcome = Ok(text: string) | HttpNotOk | Exception

  const FetchFailedMessage: string := "Failed to fetch answer. Please try again."
  const ExceptionMessage: string := "An error occurred. Check the console for details."

  /** The parameters of the one completion request the handler sends. */
  datatype CompletionRequest =
    CompletionRequest(apiKey: Value, model: Value, prompt: string, temperature: Value, maxTokens: Value)

  /**
   * The request sent for a hovered element: the stored key and the resolved
   * settings, all of them truthy, and the element's text as the prompt.
   */
  function RequestFor(store: Store, question: Element): (r: CompletionRequest)
    requires HasApiKey(store)
    ensures Truthy(r.apiKey) && Truthy(r.model) && Truthy(r.temperature) && Truthy(r.maxTokens)
    ensures Some(r.apiKey) == ApiKey(store) && r.prompt == question.innerText
    ensures r.model == SelectedModel(store)
    ensures r.temperature == CustomTemperature(store)
    ensures r.maxTokens == CustomMaxTokens(store)
  {
    CompletionRequest(ApiKey(store).value, SelectedModel(store), question.innerText,
                      CustomTemperature(store), CustomMaxTokens(store))
  }

  class HoverSession {
    /** `isLoading`: a hover request is in flight. */
    var isLoading: bool
    /** `currentQuestion`: the element that last passed the gate. */
    var currentQuestion: Option<ElementId>
    /** `floatingBox`: the singleton box, absent until first shown and after Close. */
    var floatingBox: Option<Box>
    /** The identity the next created box receives. */
    var nextBoxId: nat
    /** The extension's local key-value store. */
    var store: Store

    /**
     * The box was created by this session and, because every show step
     * overwrites `innerText`, no longer holds its Close button.
     */
    ghost predicate Valid()
      reads this
    {
      floatingBox.Some? ==> floatingBox.value.id < nextBoxId && !floatingBox.value.hasCloseButton
    }

    /** The box exists and displays `text` in `state`. */
    ghost predicate Shows(state: BoxState, text: string)
      reads this
    {
      floatingBox.Some? && floatingBox.value.state == state && floatingBox.value.text == text
    }

    /** A page's script starts idle, with no previous element and no box. */
    constructor (initial: Store)
      ensures Valid()
      ensures !isLoading && currentQuestion == None && floatingBox == None && store == initial
    {
      isLoading := false;
      currentQuestion := None;
      floatingBox := None;
      nextBoxId := 0;
      store := initial;
    }

    /** `getOrCreateFloatingBox`: returns the existing box, or creates one with a Close button. */
    method GetOrCreateFloatingBox() returns (b: Box)
      modifies this`floatingBox, this`nextBoxId
      ensures floatingBox == Some(b)
      ensures old(floatingBox).Some? ==> b == old(floatingBox).value && nextBoxId == old(nextBoxId)
      ensures old(floatingBox).None? ==> b == NewBox(old(nextBoxId)) && nextBoxId == old(nextBoxId) + 1
      ensures b == GetOrCreate(old(floatingBox), old(nextBoxId))
    {
      if floatingBox.None? {
        floatingBox := Some(NewBox(nextBoxId));
        nextBoxId := nextBoxId + 1;
      }
      b := floatingBox.value;
    }

    /** The common body of the three show steps: get or create the box, then set its text and colours. */
    method Show(state: BoxState, text: string)
      requires Valid()
      modifies this`floatingBox, this`nextBoxId
      ensures Valid()
      ensures floatingBox == Some(Render(GetOrCreate(old(floatingBox), old(nextBoxId)), state, text))
      ensures nextBoxId == if old(floatingBox).None? then old(nextBoxId) + 1 else old(nextBoxId)
    {
      var b := GetOrCreateFloatingBox();
      floatingBox := Some(Render(b, state, text));
    }

    /** `showLoadingIndicator`: the box shows "Loading..." in the loading colours. */
    method ShowLoadingIndicator()
      requires Valid()
      modifies this`floatingBox, this`nextBoxId
      ensures Valid() && Shows(Loading, LoadingText)
      ensures floatingBox == Some(Render(GetOrCreate(old(floatingBox), old(nextBoxId)), Loading, LoadingText))
      ensures nextBoxId == if old(floatingBox).None? then old(nextBoxId) + 1 else old(nextBoxId)
    {
      Show(Loading, LoadingText);
    }

    /** `showAnswerBox`: the box shows the answer in the answer colours. */
    method ShowAnswerBox(answer: string)
      requires Valid()
      modifies this`floatingBox, this`nextBoxId
      ensures Valid() && Shows(Answer, answer)
      ensures floatingBox == Some(Render(GetOrCreate(old(floatingBox), old(nextBoxId)), Answer, answer))
      ensures nextBoxId == if old(floatingBox).None? then old(nextBoxId) + 1 else old(nextBoxId)
    {
      Show(Answer, answer);
    }

    /** `showErrorBox`: the box shows the message in the error colours. */
    method ShowErrorBox(message: string)
      requires Valid()
      modifies this`floatingBox, this`nextBoxId
      ensures Valid() && Shows(Error, message)
      ensures floatingBox == Some(Render(GetOrCreate(old(floatingBox), old(nextBoxId)), Error, message))
      ensures nextBoxId == if old(floatingBox).None? then old(nextBoxId) + 1 else old(nextBoxId)
    {
      Show(Error, message);
    }

    /**
     * The Close button's click listener: removes the box and empties the slot,
     * so the next show step creates a new box. A click reaches it only while
     * the button is still inside the box, which is never the case in a Valid
     * state.
     */
    method CloseClicked()
      modifies this`floatingBox
      ensures floatingBox == if old(floatingBox).Some? && old(floatingBox).value.hasCloseButton
                             then None else old(floatingBox)
      ensures old(Valid()) ==> floatingBox == old(floatingBox)
    {
      if floatingBox.Some? && floatingBox.value.hasCloseButton {
        floatingBox := None;
      }
    }

    /**
     * The gate and its first effects (content.js:16-21): a busy session or a
     * repeat of the last element returns with nothing changed; otherwise the
     * element is recorded, the busy flag is set and the box shows "Loading...".
     */
    method Begin(target: ElementId) returns (started: bool)
      requires Valid()
      modifies this
      ensures Valid()
      ensures started <==> !old(isLoading) && old(currentQuestion) != Some(target)
      ensures !started ==> unchanged(this)
      ensures started ==> isLoading && currentQuestion == Some(target) && store == old(store)
      ensures started ==> Shows(Loading, LoadingText)
      ensures started ==> floatingBox.value.id == GetOrCreate(old(floatingBox), old(nextBoxId)).id
    {
      if isLoading || currentQuestion == Some(target) {
        return false;
      }
      currentQuestion := Some(target);
      isLoading := true;
      ShowLoadingIndicator();
      started := true;
    }

    /**
     * The API-key check (content.js:22-26): without a truthy key the busy flag
     * is cleared and nothing else changes (the element stays recorded and the
     * box keeps showing "Loading...").
     */
    method RequireApiKey() returns (proceed: bool)
      modifies this`isLoading
      ensures proceed <==> HasApiKey(store)
      ensures isLoading == (old(isLoading) && proceed)
    {
      var apiKey := ApiKey(store);
      if apiKey.None? || !Truthy(apiKey.value) {
        isLoading := false;
        return false;
      }
      proceed := true;
    }

    /**
     * `saveInteraction`: reads the history (an empty list when absent), pushes
     * one entry and writes the list back. When the stored value is not a list,
     * `push` throws inside the storage callback and nothing is written.
     */
    method SaveInteraction(question: string, answer: string, timestamp: string)
      modifies this`store
      ensures store == AppendInteraction(old(store), HistoryEntry(question, answer, timestamp))
    {
      var items := if HistoryKey in store then store[HistoryKey] else Entries([]);
      if items.Entries? {
        var newHistory := items.entries + [HistoryEntry(question, answer, timestamp)];
        store := store[HistoryKey := Entries(newHistory)];
      }
    }

    /** `saveAPIKey`: stores the key and nothing else. */
    method SaveApiKey(apiKey: string)
      modifies this`store
      ensures store == old(store)[ApiKeyKey := Str(apiKey)]
    {
      store := store[ApiKeyKey := Str(apiKey)];
    }

    /** `saveSelectedModel`: stores the model name and nothing else. */
    method SaveSelectedModel(model: string)
      modifies this`store
      ensures store == old(store)[SelectedModelKey := Str(model)]
    {
      store := store[SelectedModelKey := Str(model)];
    }

    /**
     * The end of a request (content.js:47-58): an ok response logs the
     * interaction and shows the answer; a response that is not ok and a thrown
     * error each show their fixed message and log nothing; in every case the
     * busy flag is cleared.
     */
    method Complete(question: Element, outcome: FetchOutcome, timestamp: string)
      requires Valid()
      modifies this
      ensures Valid()
      ensures !isLoading && currentQuestion == old(currentQuestion)
      ensures outcome.Ok? ==> Shows(Answer, outcome.text)
      ensures outcome.HttpNotOk? ==> Shows(Error, FetchFailedMessage)
      ensures outcome.Exception? ==> Shows(Error, ExceptionMessage)
      ensures floatingBox.value.id == GetOrCreate(old(floatingBox), old(nextBoxId)).id
      ensures outcome.Ok? ==>
        store == AppendInteraction(old(store), HistoryEntry(question.innerText, outcome.text, timestamp))
      ensures !outcome.Ok? ==> store == old(store)
    {
      match outcome {
        case Ok(answer) =>
          SaveInteraction(question.innerText, answer, timestamp);
          ShowAnswerBox(answer);
        case HttpNotOk =>
          ShowErrorBox(FetchFailedMessage);
        case Exception =>
          ShowErrorBox(ExceptionMessage);
      }
      // the `finally` block
      isLoading := false;
    }

    /**
     * One whole `handleMouseOver` run with its awaits taken in order: the
     * gate, the key check, the request (whose outcome is given) and its
     * completion. Returns the request sent, if any.
     */
    method HandleMouseOver(target: Element, outcome: FetchOutcome, timestamp: string)
      returns (request: Option<CompletionRequest>)
      requires Valid()
      modifies this
      ensures Valid()
      ensures old(isLoading) || old(currentQuestion) == Some(target.id) ==>
        request == None && unchanged(this)
      ensures !old(isLoading) && old(currentQuestion) != Some(target.id) ==>
        && currentQuestion == Some(target.id)
        && !isLoading
        && (request.Some? <==> HasApiKey(old(store)))
      ensures request.None? && !old(isLoading) && old(currentQuestion) != Some(target.id) ==>
        store == old(store) && Shows(Loading, LoadingText)
      ensures floatingBox.Some? && old(floatingBox).Some? ==> floatingBox.value.id == old(floatingBox).value.id
      ensures request.Some? ==>
        && request.value == RequestFor(old(store), target)
        && (outcome.Ok? ==>
              && Shows(Answer, outcome.text)
              && store == AppendInteraction(old(store), HistoryEntry(target.innerText, outcome.text, timestamp)))
        && (outcome.HttpNotOk? ==> Shows(Error, FetchFailedMessage) && store == old(store))
        && (outcome.Exception? ==> Shows(Error, ExceptionMessage) && store == old(store))
    {
      var started := Begin(target.id);
      if !started {
        return None;
      }
      var proceed := RequireApiKey();
      if !proceed {
        return None;
      }
      request := Some(RequestFor(store, target));
      Complete(target, outcome, timestamp);
    }
  }

  /**
   * Hovering the same element twice in a row from idle sends at most one
   * request: whatever the first run did, the second is a no-op.
   */
  method HoverSameElementTwice(s: HoverSession, e: Element, first: FetchOutcome, second: FetchOutcome, t1: string, t2: string)
    returns (r1: Option<CompletionRequest>, r2: Option<CompletionRequest>)
    requires s.Valid() && !s.isLoading
    modifies s
    ensures r2 == None
    ensures s.currentQuestion == Some(e.id) && !s.isLoading
  {
    r1 := s.HandleMouseOver(e, first, t1);
    r2 := s.HandleMouseOver(e, second, t2);
  }

  /**
   * While a request is in flight (Begin has run, Complete has not), a hover
   * over any other element is dropped, and it stays dropped until Complete.
   */
  method HoverWhileBusy(s: HoverSession, a: ElementId, b: ElementId) returns (first: bool, second: bool)
    requires s.Valid() && !s.isLoading && s.currentQuestion != Some(a)
    modifies s
    ensures first && !second
    ensures s.isLoading && s.currentQuestion == Some(a)
  {
    first := s.Begin(a);
    second := s.Begin(b);
  }
}
