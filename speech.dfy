/** What the Speak button hands to the speech engine: the spoken text of the
    current item, composed from its question and options, and the speech
    locale tag of the selected language. */
module Speech {
  import opened SurveyData

  datatype Option<T> = None | Some(value: T)

  /** The request passed to the speech engine's `speak`. */
  datatype SpeechRequest = SpeechRequest(text: string, lang: string)

  // ---------------------------------------------------------------------
  // Joining the options

  /** The strings of `xs` in order, with `sep` between neighbours
      (the empty string when `xs` is empty). */
  function Join(xs: seq<string>, sep: string): (r: string)
    ensures xs == [] ==> r == ""
    ensures |xs| > 0 ==> OccursAt(r, 0, xs[0])
  {
    if |xs| == 0 then ""
    else if |xs| == 1 then xs[0]
    else xs[0] + sep + Join(xs[1..], sep)
  }

  /** Total length of the strings of `xs`. */
  function SumLengths(xs: seq<string>): nat
  {
    if |xs| == 0 then 0 else |xs[0]| + SumLengths(xs[1..])
  }

  /** Where the `k`-th string starts in `Join(xs, sep)`: after the `k`
      strings before it, each followed by a separator. */
  function Offset(xs: seq<string>, sep: string, k: nat): nat
    requires k <= |xs|
  {
    if k == 0 then 0 else |xs[0]| + |sep| + Offset(xs[1..], sep, k - 1)
  }

  /** The joined string is as long as its parts plus one separator between
      each pair of neighbours. */
  lemma {:induction false} JoinLength(xs: seq<string>, sep: string)
    requires |xs| > 0
    ensures |Join(xs, sep)| == SumLengths(xs) + (|xs| - 1) * |sep|
  {
    if |xs| > 1 {
      JoinLength(xs[1..], sep);
    }
  }

  /** `t` occurs in `s` starting at position `p`. */
  predicate OccursAt(s: string, p: nat, t: string) {
    p + |t| <= |s| && s[p..p + |t|] == t
  }

  /** An occurrence in the right operand of a concatenation is an occurrence
      in the whole, shifted by the length of the left operand. */
  lemma OccursAtShift(a: string, b: string, p: nat, t: string)
    requires OccursAt(b, p, t)
    ensures OccursAt(a + b, |a| + p, t)
  {
  }

  /** The first string opens the joined string and, when more strings come,
      a separator follows it. */
  lemma JoinHead(xs: seq<string>, sep: string)
    requires |xs| > 0
    ensures OccursAt(Join(xs, sep), 0, xs[0])
    ensures |xs| > 1 ==> OccursAt(Join(xs, sep), |xs[0]|, sep)
  {
  }

  /** The `k`-th string of `xs` occurs in `Join(xs, sep)` at
      `Offset(xs, sep, k)` and, unless it is the last one, a separator
      follows it. */
  lemma {:induction false} JoinAt(xs: seq<string>, sep: string, k: nat)
    requires k < |xs|
    ensures OccursAt(Join(xs, sep), Offset(xs, sep, k), xs[k])
    ensures k + 1 < |xs| ==> OccursAt(Join(xs, sep), Offset(xs, sep, k) + |xs[k]|, sep)
    decreases k
  {
    if k == 0 {
      JoinHead(xs, sep);
    } else {
      var head := xs[0] + sep;
      var tail := Join(xs[1..], sep);
      assert Join(xs, sep) == head + tail;
      JoinAt(xs[1..], sep, k - 1);
      var o := Offset(xs[1..], sep, k - 1);
      assert Offset(xs, sep, k) == |head| + o;
      assert xs[1..][k - 1] == xs[k];
      OccursAtShift(head, tail, o, xs[k]);
      if k + 1 < |xs| {
        OccursAtShift(head, tail, o + |xs[k]|, sep);
      }
    }
  }

  /** The last string ends the joined string, so `JoinAt` and `JoinLength`
      describe the same string. */
  lemma {:induction false} JoinEnd(xs: seq<string>, sep: string)
    requires |xs| > 0
    ensures Offset(xs, sep, |xs| - 1) + |xs[|xs| - 1]| == |Join(xs, sep)|
    ensures Offset(xs, sep, |xs| - 1) + |xs[|xs| - 1]| == SumLengths(xs) + (|xs| - 1) * |sep|
    decreases |xs|
  {
    JoinLength(xs, sep);
    if |xs| > 1 {
      JoinEnd(xs[1..], sep);
      assert xs[1..][|xs| - 2] == xs[|xs| - 1];
    }
  }

  // ---------------------------------------------------------------------
  // The spoken text

  /** The text placed between the question and the joined options. */
  const OptionsIntro: string := ". Options are: "

  /** The separator placed between two options. */
  const OptionSeparator: string := ", "

  /** The suffix read after the question: the joined options introduced by
      `OptionsIntro` when there are options, nothing otherwise. */
  function OptionsSuffix(options: seq<string>): (r: string)
    ensures r == "" <==> options == []
    ensures options != [] ==> OccursAt(r, 0, OptionsIntro)
  {
    if |options| > 0 then OptionsIntro + Join(options, OptionSeparator) else ""
  }

  /** The text read aloud for `item` in language `l`: its question followed
      by the options suffix. */
  function SpokenText(item: Item, l: Language): (t: string)
    requires Complete(item)
    ensures |t| >= |item.question[l]|
    ensures t[..|item.question[l]|] == item.question[l]
  {
    item.question[l] + OptionsSuffix(item.options)
  }

  /** The spoken text is exactly the question if and only if the item has
      no options. */
  lemma SpokenTextIsQuestionIff(item: Item, l: Language)
    requires Complete(item)
    ensures SpokenText(item, l) == item.question[l] <==> item.options == []
  {
  }

  /** With options, the question is followed by `". Options are: "` and then by
      the options joined with `", "`, and nothing else. */
  lemma SpokenTextWithOptions(item: Item, l: Language)
    requires Complete(item)
    requires item.options != []
    ensures var q := item.question[l];
      var t := SpokenText(item, l);
      |t| == |q| + |OptionsIntro| + |Join(item.options, OptionSeparator)| &&
      t[|q|..|q| + |OptionsIntro|] == OptionsIntro &&
      t[|q| + |OptionsIntro|..] == Join(item.options, OptionSeparator)
  {
  }

  /** Each option of the item is read, in order: option `k` stands in the
      spoken text right after the question, the intro and the options before
      it with their separators. */
  lemma SpokenTextReadsOption(item: Item, l: Language, k: nat)
    requires Complete(item)
    requires k < |item.options|
    ensures OccursAt(SpokenText(item, l),
      |item.question[l]| + |OptionsIntro| + Offset(item.options, OptionSeparator, k),
      item.options[k])
  {
    var q := item.question[l];
    var j := Join(item.options, OptionSeparator);
    var o := Offset(item.options, OptionSeparator, k);
    JoinAt(item.options, OptionSeparator, k);
    assert SpokenText(item, l) == (q + OptionsIntro) + j;
    OccursAtShift(q + OptionsIntro, j, o, item.options[k]);
  }

  /** Three strings joined. */
  lemma JoinThree(a: string, b: string, c: string, sep: string)
    ensures Join([a, b, c], sep) == a + sep + b + sep + c
  {
    assert [a, b, c][1..] == [b, c];
    assert [b, c][1..] == [c];
    assert Join([b, c], sep) == b + sep + c;
    assert a + sep + (b + sep + c) == a + sep + b + sep + c;
  }

  /** The Hindi question of item 0 and the options it offers. */
  lemma FirstItemData()
    ensures Hi in Survey()[0].question
    ensures Survey()[0].question[Hi] == "आपका पसंदीदा फल क्या है?"
    ensures Survey()[0].options == ["Apple", "Banana", "Orange"]
  {
  }

  /** The parts of the Hindi reading of item 0, put together. */
  lemma HindiFirstItemSpelled()
    ensures "आपका पसंदीदा फल क्या है?" + OptionsIntro
          + ("Apple" + OptionSeparator + "Banana" + OptionSeparator + "Orange")
         == "आपका पसंदीदा फल क्या है?. Options are: Apple, Banana, Orange"
  {
  }

  /** Item 0 read in Hindi. */
  lemma HindiFirstItem()
    ensures (SurveyComplete();
      SpokenText(Survey()[0], Hi)
        == "आपका पसंदीदा फल क्या है?. Options are: Apple, Banana, Orange")
  {
    SurveyComplete();
    FirstItemData();
    JoinThree("Apple", "Banana", "Orange", OptionSeparator);
    HindiFirstItemSpelled();
  }

  // ---------------------------------------------------------------------
  // The speech locale

  /** The speech locale tag for a language code: Hindi and Khmer get their
      own tags and every other string falls back to US English. */
  function GetLangCode(lang: string): (tag: string)
    ensures tag == "hi-IN" <==> lang == "hi"
    ensures tag == "km-KH" <==> lang == "km"
    ensures tag == "en-US" <==> lang != "hi" && lang != "km"
  {
    if lang == "hi" then "hi-IN"
    else if lang == "km" then "km-KH"
    else "en-US"
  }

  /** The language a locale tag produced by `GetLangCode` stands for. */
  function LanguageOfTag(tag: string): Option<Language>
  {
    if tag == "en-US" then Some(En)
    else if tag == "hi-IN" then Some(Hi)
    else if tag == "km-KH" then Some(Km)
    else None
  }

  /** The selected language can be recovered from the tag sent to the speech
      engine, so no two languages are spoken with the same locale. */
  lemma LangCodeRoundTrip(l: Language)
    ensures LanguageOfTag(GetLangCode(Code(l))) == Some(l)
  {
  }
}
