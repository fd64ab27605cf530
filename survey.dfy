/** The survey dataset of the Voice Survey screen: the three display languages,
    one survey item (a question per language and an ordered list of answer
    options), and the fixed two-item survey the screen walks through. */
module SurveyData {

  /** The three values offered by the language <select>. */
  datatype Language = En | Hi | Km

  /** The `value` attribute of the <select> option for a language. */
  function Code(l: Language): (c: string)
    ensures |c| == 2
  {
    match l
    case En => "en"
    case Hi => "hi"
    case Km => "km"
  }

  /** Distinct languages have distinct option values, so the <select> value
      identifies the language. */
  lemma CodeInjective(a: Language, b: Language)
    ensures Code(a) == Code(b) <==> a == b
  {
  }

  /** A survey item: the question text keyed by language, and the answer
      options in display order (empty for a free-response question). */
  datatype Item = Item(question: map<Language, string>, options: seq<string>)

  /** Every language has a question text, so `question[language]` is defined
      whatever language is selected. */
  ghost predicate Complete(item: Item) {
    forall l: Language :: l in item.question
  }

  /** The survey shown by the screen. */
  function Survey(): (s: seq<Item>)
    ensures |s| == 2
  {
    [ Item(map[En := "What is your favorite fruit?",
               Hi := "आपका पसंदीदा फल क्या है?",
               Km := "ផ្លែឈើដែលអ្នកចូលចិត្តបំផុតគឺអ្វី?"],
           ["Apple", "Banana", "Orange"]),
      Item(map[En := "How do you feel today?",
               Hi := "आज आप कैसा महसूस कर रहे हैं?",
               Km := "ថ្ងៃនេះអ្នកមានអារម្មណ៍យ៉ាងដូចម្តេច?"],
           [])
    ]
  }

  /** Every item of the survey defines its question in all three languages,
      so the question of the current item in the selected language always
      exists. */
  lemma SurveyComplete()
    ensures forall i :: 0 <= i < |Survey()| ==> Complete(Survey()[i])
  {
    forall i, l: Language | 0 <= i < |Survey()| ensures l in Survey()[i].question {
      match l
      case En =>
      case Hi =>
      case Km =>
    }
  }
}
