/** The page/session state machine of app.py: the keys the app keeps in
    `st.session_state`, what each button handler does to them
    (app.py:400-406, 423-427, 462-478, 497-500, 507-513, 551-557), and the
    script run `main` performs on every interaction (app.py:565-576).

    `State` is the session as a value and its member functions are the
    transitions; `SessionState` is the mutable session the handlers change
    key by key, and each of its methods is proved to perform the matching
    transition. */
module Session {
  import opened Wrappers
  import opened Text
  import opened Deck
  import opened Provider
  import opened Reading

  /** The value of the `page` key. */
  datatype Page = Welcome | Selector | Result

  /** The options of the topic selectbox (app.py:448-459). */
  datatype Area = General | Love | Career | Spirituality

  /** The session keys the handlers delete; `page` is never deleted. */
  datatype Key = QuestionKey | AreaKey | SelectedCardKey | InterpretationKey

  /** What the user did during one script run: nothing, or one button
      press together with the widget values that run reads. */
  datatype Click =
    | NoClick
    | StartReadingClick(typed: string)                                  // text box content
    | CloseSelectorClick
    | DrawCardClick(chosenArea: Area, cardIndex: CardIndex, outcome: Outcome)  // selectbox value, the
                                                                        // `random.choice` pick, the provider's answer
    | CloseResultClick
    | AskAgainClick

  /** The session as a value: `None` where the key is absent. */
  datatype State = State(
    page: Option<Page>,
    question: Option<string>,
    area: Option<Area>,
    selectedCard: Option<Card>,
    interpretation: Option<string>)
  {
    predicate Has(k: Key)
    {
      match k
      case QuestionKey => question.Some?
      case AreaKey => area.Some?
      case SelectedCardKey => selectedCard.Some?
      case InterpretationKey => interpretation.Some?
    }

    /** `if key in st.session_state: del st.session_state[key]`. The key is
        absent afterwards, every other key keeps its value, and deleting an
        absent key changes nothing. */
    function Delete(k: Key): (r: State)
      ensures !r.Has(k)
      ensures !Has(k) ==> r == this
      ensures r.page == page
      ensures forall k' :: k' != k ==> (r.Has(k') <==> Has(k'))
      ensures k != QuestionKey ==> r.question == question
      ensures k != AreaKey ==> r.area == area
      ensures k != SelectedCardKey ==> r.selectedCard == selectedCard
      ensures k != InterpretationKey ==> r.interpretation == interpretation
    {
      if !Has(k) then this
      else match k
        case QuestionKey => this.(question := None)
        case AreaKey => this.(area := None)
        case SelectedCardKey => this.(selectedCard := None)
        case InterpretationKey => this.(interpretation := None)
    }

    /** The deletion loop `for key in keys: if key in st.session_state: del ...`:
        exactly the listed keys are gone, the others keep their values. */
    function DeleteAll(keys: seq<Key>): (r: State)
      ensures r.page == page
      ensures r.question == if QuestionKey in keys then None else question
      ensures r.area == if AreaKey in keys then None else area
      ensures r.selectedCard == if SelectedCardKey in keys then None else selectedCard
      ensures r.interpretation == if InterpretationKey in keys then None else interpretation
      decreases |keys|
    {
      if keys == [] then this
      else
        var init := keys[..|keys| - 1];
        assert keys == init + [keys[|keys| - 1]];
        DeleteAll(init).Delete(keys[|keys| - 1])
    }

    /** The first thing `main` does: set `page` to "welcome" only when the
        key is absent; an existing page is never overwritten. */
    function Init(): (r: State)
      ensures r.page.Some?
      ensures page.Some? ==> r == this
      ensures page.None? ==> r == this.(page := Some(Welcome))
    {
      if page.None? then this.(page := Some(Welcome)) else this
    }

    /** "Start Reading" on the welcome page. A question that is whitespace
        only changes nothing (the page shows an error instead); any other
        question is stored as typed, untrimmed, and the selector opens. */
    function StartReading(typed: string): (r: State)
      ensures AllSpace(typed) ==> r == this
      ensures !AllSpace(typed) ==> r == this.(question := Some(typed), page := Some(Selector))
      ensures Valid() ==> r.Valid()
    {
      StripEmptyIffAllSpace(typed);
      if Strip(typed) != "" then this.(question := Some(typed), page := Some(Selector)) else this
    }

    /** The close button of the selector: deletes only `question` and
        returns to the welcome page. */
    function CloseSelector(): (r: State)
      ensures r == this.(question := None, page := Some(Welcome))
      ensures Valid() ==> r.Valid()
    {
      Delete(QuestionKey).(page := Some(Welcome))
    }

    /** "Draw Card": the drawn deck card, the reading generated for it and
        the stored question (or "" when there is none), and the chosen area
        are stored together, and the result page opens. `question` is kept;
        the area plays no part in the reading. */
    function DrawCard(chosenArea: Area, cardIndex: CardIndex, outcome: Outcome): (r: State)
      ensures r.page == Some(Result)
      ensures r.selectedCard.Some? && r.selectedCard.value in TarotDeck
      ensures r.selectedCard == Some(TarotDeck[cardIndex])
      ensures r.interpretation == Some(TarotReading(TarotDeck[cardIndex].name, question.GetOr(""),
                                                    TarotDeck[cardIndex].keywords, outcome))
      ensures r.area == Some(chosenArea)
      ensures r.question == question
      ensures Valid() ==> r.Valid()
    {
      var card := Draw(cardIndex);
      var reading := TarotReading(card.name, question.GetOr(""), card.keywords, outcome);
      this.(selectedCard := Some(card), interpretation := Some(reading),
            area := Some(chosenArea), page := Some(Result))
    }

    /** `not selected_card or not interpretation`: a card record, being a
        non-empty dict, is falsy only when absent; the reading is falsy when
        absent or empty. */
    predicate ResultMissing()
    {
      selectedCard.None? || interpretation.None? || interpretation == Some("")
    }

    /** The guard at the top of the result page: with nothing to show it
        redirects to the welcome page, touching no other key. */
    function ResultGuard(): (r: State)
      ensures ResultMissing() ==> r == this.(page := Some(Welcome))
      ensures !ResultMissing() ==> r == this
      ensures Valid() ==> r.Valid()
    {
      if ResultMissing() then this.(page := Some(Welcome)) else this
    }

    /** The close button of the result page: every key but `page` is gone
        and the welcome page opens. */
    function CloseResult(): (r: State)
      ensures r == State(Some(Welcome), None, None, None, None)
    {
      DeleteAll([QuestionKey, SelectedCardKey, InterpretationKey, AreaKey]).(page := Some(Welcome))
    }

    /** "Ask a question": deletes only the card and its reading, keeps
        `question` and `area`, and opens the welcome page (not the selector). */
    function AskAgain(): (r: State)
      ensures r == this.(selectedCard := None, interpretation := None, page := Some(Welcome))
      ensures Valid() ==> r.Valid()
    {
      DeleteAll([SelectedCardKey, InterpretationKey]).(page := Some(Welcome))
    }

    /** One run of `main`: initialise `page`, then let the current page
        handle the click; a press of a button the current page does not
        show does nothing. */
    function Run(click: Click): (r: State)
      ensures r.page.Some?
      ensures Valid() ==> r.Valid()
    {
      var s := Init();
      match s.page.value
      case Welcome =>
        if click.StartReadingClick? then s.StartReading(click.typed) else s
      case Selector =>
        if click.CloseSelectorClick? then s.CloseSelector()
        else if click.DrawCardClick? then s.DrawCard(click.chosenArea, click.cardIndex, click.outcome)
        else s
      case Result =>
        if s.ResultMissing() then s.ResultGuard()
        else if click.CloseResultClick? then s.CloseResult()
        else if click.AskAgainClick? then s.AskAgain()
        else s
    }

    /** What holds in every state the app can reach: the selector page has
        a non-blank question to draw for; the result page has a card and a
        reading; card and reading are stored and deleted together; and a
        stored card is a deck card. */
    predicate Valid()
    {
      (page == Some(Selector) ==> question.Some? && !AllSpace(question.value))
      && (page == Some(Result) ==> selectedCard.Some? && interpretation.Some?)
      && (selectedCard.Some? <==> interpretation.Some?)
      && (selectedCard.Some? ==> selectedCard.value in TarotDeck)
    }
  }

  /** A new session: no key present. */
  const Fresh: State := State(None, None, None, None, None)

  /** The session after a sequence of script runs. */
  function Trace(s: State, clicks: seq<Click>): State
    decreases |clicks|
  {
    if clicks == [] then s else Trace(s.Run(clicks[0]), clicks[1..])
  }

  /** Every run keeps the invariant, so it holds along any sequence of runs. */
  lemma {:induction false} TraceKeepsValid(s: State, clicks: seq<Click>)
    requires s.Valid()
    ensures Trace(s, clicks).Valid()
    decreases |clicks|
  {
    if clicks != [] {
      TraceKeepsValid(s.Run(clicks[0]), clicks[1..]);
    }
  }

  /** Every state reachable from a new session satisfies the invariant:
      on the selector there is always a non-blank question, and on the
      result page always a card and a reading. */
  lemma ReachableStatesAreValid(clicks: seq<Click>)
    ensures var s := Trace(Fresh, clicks);
            s.Valid()
            && (s.page == Some(Selector) ==> s.question.Some? && Strip(s.question.value) != "")
            && (s.page == Some(Result) ==> s.selectedCard.Some? && s.interpretation.Some?)
  {
    TraceKeepsValid(Fresh, clicks);
    var s := Trace(Fresh, clicks);
    if s.page == Some(Selector) {
      StripEmptyIffAllSpace(s.question.value);
    }
  }

  /** A failed provider call leaves the session in the same shape as a
      successful one: only the reading text can differ. */
  lemma DrawShapeIndependentOfOutcome(s: State, chosenArea: Area, cardIndex: CardIndex, o1: Outcome, o2: Outcome)
    ensures var r1 := s.DrawCard(chosenArea, cardIndex, o1);
            var r2 := s.DrawCard(chosenArea, cardIndex, o2);
            r1.interpretation.Some? && r2.interpretation.Some?
            && r1.(interpretation := None) == r2.(interpretation := None)
  {
  }

  /** The chosen area is stored but never reaches the generator: the
      reading is the same whichever area was chosen. */
  lemma ReadingIgnoresArea(s: State, a1: Area, a2: Area, cardIndex: CardIndex, outcome: Outcome)
    ensures s.DrawCard(a1, cardIndex, outcome).interpretation == s.DrawCard(a2, cardIndex, outcome).interpretation
  {
  }

  /** `st.session_state` for one browser session, changed in place by the
      button handlers. */
  class SessionState {
    var page: Option<Page>
    var question: Option<string>
    var area: Option<Area>
    var selectedCard: Option<Card>
    var interpretation: Option<string>

    /** The session's current keys as a value. */
    function Snapshot(): State
      reads this
    {
      State(page, question, area, selectedCard, interpretation)
    }

    constructor ()
      ensures Snapshot() == Fresh
    {
      page, question, area, selectedCard, interpretation := None, None, None, None, None;
    }

    /** `if key in st.session_state: del st.session_state[key]`. */
    method Delete(k: Key)
      modifies this
      ensures Snapshot() == old(Snapshot()).Delete(k)
    {
      match k
      case QuestionKey => if question.Some? { question := None; }
      case AreaKey => if area.Some? { area := None; }
      case SelectedCardKey => if selectedCard.Some? { selectedCard := None; }
      case InterpretationKey => if interpretation.Some? { interpretation := None; }
    }

    /** `for key in keys: if key in st.session_state: del st.session_state[key]`. */
    method DeleteKeys(keys: seq<Key>)
      modifies this
      ensures Snapshot() == old(Snapshot()).DeleteAll(keys)
    {
      var i := 0;
      while i < |keys|
        invariant 0 <= i <= |keys|
        invariant Snapshot() == old(Snapshot()).DeleteAll(keys[..i])
      {
        assert keys[..i + 1][..i] == keys[..i];
        Delete(keys[i]);
        i := i + 1;
      }
      assert keys[..i] == keys;
    }

    /** The page initialisation at the start of `main`. */
    method Init()
      modifies this
      ensures Snapshot() == old(Snapshot()).Init()
    {
      if page.None? {
        page := Some(Welcome);
      }
    }

    /** The "Start Reading" handler; `accepted` is false when the page shows
        "Please enter your question first" instead. */
    method StartReading(typed: string) returns (accepted: bool)
      modifies this
      ensures accepted <==> !AllSpace(typed)
      ensures Snapshot() == old(Snapshot()).StartReading(typed)
    {
      StripEmptyIffAllSpace(typed);
      accepted := Strip(typed) != "";
      if accepted {
        question := Some(typed);
        page := Some(Selector);
      }
    }

    /** The selector's close handler. */
    method CloseSelector()
      modifies this
      ensures Snapshot() == old(Snapshot()).CloseSelector()
    {
      Delete(QuestionKey);
      page := Some(Welcome);
    }

    /** The "Draw Card" handler, given the chosen area, the position
        `random.choice` picked and what the provider call came to. */
    method DrawCard(chosenArea: Area, cardIndex: CardIndex, outcome: Outcome)
      modifies this
      ensures Snapshot() == old(Snapshot()).DrawCard(chosenArea, cardIndex, outcome)
    {
      var card := Draw(cardIndex);
      var asked := question.GetOr("");
      var reading := TarotReading(card.name, asked, card.keywords, outcome);
      selectedCard := Some(card);
      interpretation := Some(reading);
      area := Some(chosenArea);
      page := Some(Result);
    }

    /** The guard at the top of the result page; `redirected` tells whether
        the rest of the page is skipped. */
    method RenderResultGuard() returns (redirected: bool)
      modifies this
      ensures redirected == old(Snapshot()).ResultMissing()
      ensures Snapshot() == old(Snapshot()).ResultGuard()
    {
      redirected := selectedCard.None? || interpretation.None? || interpretation.value == "";
      if redirected {
        page := Some(Welcome);
      }
    }

    /** The result page's close handler. */
    method CloseResult()
      modifies this
      ensures Snapshot() == old(Snapshot()).CloseResult()
    {
      DeleteKeys([QuestionKey, SelectedCardKey, InterpretationKey, AreaKey]);
      page := Some(Welcome);
    }

    /** The "Ask a question" handler. */
    method AskAgain()
      modifies this
      ensures Snapshot() == old(Snapshot()).AskAgain()
    {
      DeleteKeys([SelectedCardKey, InterpretationKey]);
      page := Some(Welcome);
    }

    /** One run of `main` with the click of this run; the invariant of
        reachable states is kept. */
    method Run(click: Click)
      modifies this
      ensures Snapshot() == old(Snapshot()).Run(click)
      ensures old(Snapshot()).Valid() ==> Snapshot().Valid()
    {
      Init();
      match page.value
      case Welcome =>
        if click.StartReadingClick? {
          var _ := StartReading(click.typed);
        }
      case Selector =>
        if click.CloseSelectorClick? {
          CloseSelector();
        } else if click.DrawCardClick? {
          DrawCard(click.chosenArea, click.cardIndex, click.outcome);
        }
      case Result =>
        var redirected := RenderResultGuard();
        if !redirected {
          if click.CloseResultClick? {
            CloseResult();
          } else if click.AskAgainClick? {
            AskAgain();
          }
        }
    }
  }
}
