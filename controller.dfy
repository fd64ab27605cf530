/** The Voice Survey screen as a state machine over (index, language): the
    Previous and Next buttons, the language <select>, and the Speak and
    Record buttons, which read the state but never change it. */
module Controller {
  import opened SurveyData
  import opened Speech

  /** The screen's state: the position in the survey and the selected
      language. `index` is a plain integer, as in the source; that it stays
      within the survey is proved, not assumed. */
  datatype State = State(index: int, language: Language)

  /** A user action that changes the state. */
  datatype Event = ClickPrevious | ClickNext | Select(l: Language)

  /** The state the screen starts in: first question, English. */
  const Initial: State := State(0, En)

  /** Previous is rendered disabled at the first question. */
  predicate PreviousDisabled(s: State) {
    s.index == 0
  }

  /** Next is rendered disabled at the last question of an `n`-item survey. */
  predicate NextDisabled(n: int, s: State) {
    s.index == n - 1
  }

  /** The state after event `e` in an `n`-item survey. A click on a disabled
      button does nothing; an enabled Previous or Next moves by one; choosing
      in the <select> replaces the language. */
  function Step(n: int, s: State, e: Event): (r: State)
    ensures -1 <= r.index - s.index <= 1
    ensures e.Select? ==> r.index == s.index && r.language == e.l
    ensures !e.Select? ==> r.language == s.language
  {
    match e
    case ClickPrevious => if PreviousDisabled(s) then s else s.(index := s.index - 1)
    case ClickNext => if NextDisabled(n, s) then s else s.(index := s.index + 1)
    case Select(l) => s.(language := l)
  }

  /** The state after the events `es`, in order. */
  function Run(n: int, s: State, es: seq<Event>): State
    decreases |es|
  {
    if es == [] then s else Run(n, Step(n, s, es[0]), es[1..])
  }

  /** Events are handled one after another: handling one more event after a
      sequence is one more `Step`. */
  lemma {:induction false} RunAppend(n: int, s: State, es: seq<Event>, e: Event)
    ensures Run(n, s, es + [e]) == Step(n, Run(n, s, es), e)
    decreases |es|
  {
    if es == [] {
      assert [] + [e] == [e];
      assert [e][1..] == [];
    } else {
      assert (es + [e])[0] == es[0];
      assert (es + [e])[1..] == es[1..] + [e];
      RunAppend(n, Step(n, s, es[0]), es[1..], e);
    }
  }

  /** The index is a position of the survey. */
  predicate InRange(n: int, s: State) {
    0 <= s.index < n
  }

  /** The screen starts at the first question, in English: a position of any
      non-empty survey, where Previous is disabled. */
  lemma InitialState(n: int)
    requires n > 0
    ensures Initial.index == 0 && Initial.language == En
    ensures InRange(n, Initial)
    ensures PreviousDisabled(Initial)
  {
  }

  /** One event keeps the index inside the survey; navigation moves it by at
      most one and the <select> leaves it alone. */
  lemma StepInRange(n: int, s: State, e: Event)
    requires InRange(n, s)
    ensures InRange(n, Step(n, s, e))
    ensures -1 <= Step(n, s, e).index - s.index <= 1
    ensures e.Select? ==> Step(n, s, e).index == s.index
  {
  }

  /** Whatever the users click, the index stays inside the survey: the
      disabled Previous and Next buttons are exactly the bounds checks. */
  lemma {:induction false} RunInRange(n: int, s: State, es: seq<Event>)
    requires InRange(n, s)
    ensures InRange(n, Run(n, s, es))
    decreases |es|
  {
    if es != [] {
      StepInRange(n, s, es[0]);
      RunInRange(n, Step(n, s, es[0]), es[1..]);
    }
  }

  /** Previous and Next leave the language alone; the <select> leaves the
      index alone and sets exactly the chosen language. */
  lemma StepFrames(n: int, s: State, e: Event)
    ensures !e.Select? ==> Step(n, s, e).language == s.language
    ensures e.Select? ==> Step(n, s, e) == State(s.index, e.l)
  {
  }

  /** A sequence of Previous and Next clicks never changes the language. */
  lemma {:induction false} NavigationKeepsLanguage(n: int, s: State, es: seq<Event>)
    requires forall i :: 0 <= i < |es| ==> !es[i].Select?
    ensures Run(n, s, es).language == s.language
    decreases |es|
  {
    if es != [] {
      StepFrames(n, s, es[0]);
      NavigationKeepsLanguage(n, Step(n, s, es[0]), es[1..]);
    }
  }

  /** A sequence of language choices never changes the index, and the last
      choice wins. */
  lemma {:induction false} SelectionsKeepIndex(n: int, s: State, es: seq<Event>)
    requires forall i :: 0 <= i < |es| ==> es[i].Select?
    ensures Run(n, s, es).index == s.index
    ensures es != [] ==> Run(n, s, es).language == es[|es| - 1].l
    decreases |es|
  {
    if es != [] {
      SelectionsKeepIndex(n, Step(n, s, es[0]), es[1..]);
    }
  }

  /** An enabled Next is undone by Previous, and an enabled Previous by Next. */
  lemma NavigationInverse(n: int, s: State)
    requires InRange(n, s)
    ensures !NextDisabled(n, s) ==> Step(n, Step(n, s, ClickNext), ClickPrevious) == s
    ensures !PreviousDisabled(s) ==> Step(n, Step(n, s, ClickPrevious), ClickNext) == s
  {
  }

  /** `k` Next clicks. */
  function Nexts(k: nat): (es: seq<Event>)
    ensures |es| == k
    ensures forall i :: 0 <= i < k ==> es[i] == ClickNext
  {
    if k == 0 then [] else [ClickNext] + Nexts(k - 1)
  }

  /** Every question is reachable from a given one by Next clicks alone, one
      question per click, and the language does not change on the way. */
  lemma {:induction false} NextsReach(n: int, s: State, k: nat)
    requires InRange(n, s) && s.index + k < n
    ensures Run(n, s, Nexts(k)) == s.(index := s.index + k)
    decreases k
  {
    if k > 0 {
      var t := Step(n, s, ClickNext);
      assert t == s.(index := s.index + 1);
      assert Nexts(k)[1..] == Nexts(k - 1);
      NextsReach(n, t, k - 1);
    }
  }

  /** On the two-item survey: Previous is disabled at the start and does
      nothing, Next moves to the second question, where Next is disabled and
      does nothing. */
  lemma Scenario()
    ensures PreviousDisabled(Initial)
    ensures Step(|Survey()|, Initial, ClickPrevious) == Initial
    ensures Step(|Survey()|, Initial, ClickNext) == State(1, En)
    ensures NextDisabled(|Survey()|, State(1, En))
    ensures Run(|Survey()|, Initial, [ClickPrevious, ClickNext, ClickNext]) == State(1, En)
  {
  }

  /** What the Record button does on each platform. */
  datatype RecordAction =
    | CaptureAndLog               // try to record a clip, read it back and log its payload
    | Alert(message: string)     // tell the user recording needs the native app

  /** The notice shown when recording is attempted outside the native app. */
  const NativeOnlyMessage: string := "Voice recording works only in native app."

  /** The Voice Survey screen: the current position and language, updated in
      place by its buttons. */
  class App {
    var index: int
    var language: Language

    /** The screen's state as a value. */
    function Current(): State
      reads this
    {
      State(index, language)
    }

    /** The index always names a question of the survey. */
    ghost predicate Valid()
      reads this
    {
      InRange(|Survey()|, Current())
    }

    /** The screen opens at the first question, in English. */
    constructor ()
      ensures Valid()
      ensures Current() == Initial
    {
      index := 0;
      language := En;
    }

    /** The Previous button: moves back one question unless it is disabled. */
    method Previous()
      requires Valid()
      modifies this
      ensures Valid()
      ensures Current() == Step(|Survey()|, old(Current()), ClickPrevious)
    {
      if index != 0 {
        index := index - 1;
      }
    }

    /** The Next button: moves on one question unless it is disabled. */
    method Next()
      requires Valid()
      modifies this
      ensures Valid()
      ensures Current() == Step(|Survey()|, old(Current()), ClickNext)
    {
      if index != |Survey()| - 1 {
        index := index + 1;
      }
    }

    /** The language <select>: replaces the language, whatever it was. */
    method SetLanguage(l: Language)
      requires Valid()
      modifies this
      ensures Valid()
      ensures Current() == Step(|Survey()|, old(Current()), Select(l))
    {
      language := l;
    }

    /** The Speak button: the request handed to the speech engine, carrying
        the current question's spoken text and the locale of the selected
        language. The state is only read. */
    method Speak() returns (request: SpeechRequest)
      requires Valid()
      ensures (SurveyComplete();
        request.text == SpokenText(Survey()[index], language))
      ensures request.lang == GetLangCode(Code(language))
      ensures LanguageOfTag(request.lang) == Some(language)
    {
      SurveyComplete();
      var current := Survey()[index];
      var text := current.question[language] +
        (if |current.options| > 0
         then OptionsIntro + Join(current.options, OptionSeparator)
         else "");
      LangCodeRoundTrip(language);
      request := SpeechRequest(text, GetLangCode(Code(language)));
    }

    /** The Record button, on a platform that is (`isNative`) or is not the
        native app. Either way the state is untouched. */
    method RecordAudio(isNative: bool) returns (action: RecordAction)
      ensures action.CaptureAndLog? <==> isNative
      ensures !isNative ==> action == Alert(NativeOnlyMessage)
      ensures unchanged(this)
    {
      if isNative {
        action := CaptureAndLog;
      } else {
        action := Alert(NativeOnlyMessage);
      }
    }
  }
}
