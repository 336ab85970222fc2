/**
 * The dashboard (dashboard/page.tsx): the farmer's name in the greeting,
 * singular and plural translation keys, the price ticker, the advisory texts
 * and the read-aloud state of the advisory cards.
 *
 * Speech synthesis and audio playback are outside the model: a request is
 * recorded with its language code, and its completion or failure is a
 * separate step.
 */
module Dashboard {
  import opened Text
  import opened Farm
  import opened Lists
  import Translation
  import CropPrices

  // ---------------------------------------------------------------------------
  // The greeting
  // ---------------------------------------------------------------------------

  /**
   * `farmerName`: the first space-separated word of the profile's name, or
   * the translated default (`defaultName`) when there is no profile or that
   * word is empty.
   */
  function FarmerName(profile: Option<FarmerProfile>, defaultName: string): string {
    match profile
    case None => defaultName
    case Some(p) =>
      var first := Split(p.name, ' ')[0];
      if first != "" then first else defaultName
  }

  /**
   * The greeting uses the name up to its first space; a name that is empty or
   * starts with a space falls back to the default.
   */
  lemma FarmerNameSpec(profile: Option<FarmerProfile>, defaultName: string)
    ensures profile.None? ==> FarmerName(profile, defaultName) == defaultName
    ensures profile.Some? && (profile.value.name == "" || profile.value.name[0] == ' ') ==>
      FarmerName(profile, defaultName) == defaultName
    ensures profile.Some? && profile.value.name != "" && profile.value.name[0] != ' ' ==>
      var r := FarmerName(profile, defaultName);
      var name := profile.value.name;
      r != "" && r <= name && ' ' !in r && (|r| < |name| ==> name[|r|] == ' ')
  {
    if profile.Some? {
      var name := profile.value.name;
      FirstPieceOfSplit(name, ' ');
      if name != "" && name[0] != ' ' {
        assert FirstPiece(name, ' ')[0] == name[0];
      }
    }
  }

  // ---------------------------------------------------------------------------
  // `tPlural`
  // ---------------------------------------------------------------------------

  /** The key `tPlural` looks up: the key itself for one, the key with an `s` otherwise. */
  function PluralKey(key: string, count: nat): string {
    if count == 1 then key else key + "s"
  }

  /** `tPlural(key, count)`: the translation of the chosen key, with `{count}` filled in. */
  function TPlural(en: Translation.Node, ml: Translation.Node, language: Language, key: string, count: nat): Translation.Node {
    Translation.Translate(en, ml, language, PluralKey(key, count), [("count", Decimal(count))])
  }

  /**
   * Only a count of one takes the singular key; when the chosen key has a
   * text in the current language, its first `{count}` becomes the number.
   */
  lemma TPluralSpec(en: Translation.Node, ml: Translation.Node, language: Language, key: string, count: nat, s: string)
    requires Translation.Lookup(Translation.Table(en, ml, language), Split(PluralKey(key, count), '.'))
      == Some(Translation.Leaf(s))
    requires s != ""
    ensures PluralKey(key, count) == key <==> count == 1
    ensures TPlural(en, ml, language, key, count) == Translation.Leaf(ReplaceFirst(s, "{count}", Decimal(count)))
  {
    Translation.FoundInCurrent(en, ml, language, PluralKey(key, count), [("count", Decimal(count))], s);
    Translation.SubstituteOne(s, "count", Decimal(count));
    assert Translation.Placeholder("count") == "{count}";
    if count != 1 {
      assert |PluralKey(key, count)| == |key| + 1;
    }
  }

  // ---------------------------------------------------------------------------
  // The price ticker
  // ---------------------------------------------------------------------------

  /** The crops the ticker draws from: name, price and trend. */
  datatype TickerCrop = TickerCrop(name: string, price: nat, trend: CropPrices.Trend)

  function MarketCrops(): seq<TickerCrop> {
    [TickerCrop("Rubber", 180, CropPrices.Up),
     TickerCrop("Pepper", 550, CropPrices.Up),
     TickerCrop("Coconut", 30, CropPrices.Stable),
     TickerCrop("Banana", 45, CropPrices.Down),
     TickerCrop("Rice (Uma)", 42, CropPrices.Stable),
     TickerCrop("Tapioca", 35, CropPrices.Up)]
  }

  /** Worth selling now: rising, or dearer than 100 a kilogram. */
  predicate HighValue(c: TickerCrop) {
    c.trend == CropPrices.Up || c.price > 100
  }

  /** One entry of the ticker, ` <name>: ₹<price>/kg`. */
  function TickerEntry(c: TickerCrop): string {
    " " + c.name + ": ₹" + Decimal(c.price) + "/kg"
  }

  /** `highValueCrops`: the entries of the crops worth selling, in list order. */
  function HighValueEntries(crops: seq<TickerCrop>): seq<string> {
    var kept := Filter(HighValue, crops);
    seq(|kept|, k requires 0 <= k < |kept| => TickerEntry(kept[k]))
  }

  /** `priceTickerContent`. */
  function TickerText(crops: seq<TickerCrop>): string {
    "Good time to sell:" + Join(HighValueEntries(crops), "  | ")
  }

  /**
   * The ticker has one entry per crop worth selling, in list order, and a
   * crop is worth selling exactly when it rises or costs more than 100.
   */
  lemma HighValueSpec(crops: seq<TickerCrop>, c: TickerCrop)
    ensures c in Filter(HighValue, crops) <==> c in crops && (c.trend == CropPrices.Up || c.price > 100)
    ensures |HighValueEntries(crops)| == |Filter(HighValue, crops)|
    ensures forall k :: 0 <= k < |HighValueEntries(crops)| ==>
      HighValueEntries(crops)[k] == TickerEntry(Filter(HighValue, crops)[k])
  {
    FilterMembers(HighValue, crops, c);
  }

  /** On the dashboard's list the crops worth selling are rubber, pepper and tapioca. */
  lemma InitialHighValue()
    ensures Filter(HighValue, MarketCrops()) == [MarketCrops()[0], MarketCrops()[1], MarketCrops()[5]]
  {
    var s := MarketCrops();
    assert Filter(HighValue, s[5..]) == [s[5]];
    assert Filter(HighValue, s[4..]) == [s[5]] by { assert s[4..][1..] == s[5..]; }
    assert Filter(HighValue, s[3..]) == [s[5]] by { assert s[3..][1..] == s[4..]; }
    assert Filter(HighValue, s[2..]) == [s[5]] by { assert s[2..][1..] == s[3..]; }
    assert Filter(HighValue, s[1..]) == [s[1], s[5]] by { assert s[1..][1..] == s[2..]; }
  }

  lemma RubberEntry()
    ensures TickerEntry(MarketCrops()[0]) == " Rubber: ₹180/kg"
  {
    DecimalThreeDigits(180);
    assert Decimal(180) == "180";
  }

  lemma PepperEntry()
    ensures TickerEntry(MarketCrops()[1]) == " Pepper: ₹550/kg"
  {
    DecimalThreeDigits(550);
    assert Decimal(550) == "550";
  }

  lemma TapiocaEntry()
    ensures TickerEntry(MarketCrops()[5]) == " Tapioca: ₹35/kg"
  {
    DecimalTwoDigits(35);
    assert Decimal(35) == "35";
  }

  /** The ticker's entries on the dashboard's list. */
  lemma InitialHighValueEntries()
    ensures HighValueEntries(MarketCrops()) == [" Rubber: ₹180/kg", " Pepper: ₹550/kg", " Tapioca: ₹35/kg"]
  {
    InitialHighValue();
    RubberEntry();
    PepperEntry();
    TapiocaEntry();
  }

  /** The ticker text the dashboard shows. */
  lemma InitialTicker()
    ensures TickerText(MarketCrops()) ==
      "Good time to sell:" + " Rubber: ₹180/kg" + "  | " + " Pepper: ₹550/kg" + "  | " + " Tapioca: ₹35/kg"
  {
    InitialHighValueEntries();
    JoinThree(" Rubber: ₹180/kg", " Pepper: ₹550/kg", " Tapioca: ₹35/kg", "  | ");
  }

  // ---------------------------------------------------------------------------
  // Advisory cards and reading aloud
  // ---------------------------------------------------------------------------

  /** The language code sent to speech synthesis. */
  function TtsLanguage(l: Language): (r: string)
    ensures r == "en-US" <==> l == En
    ensures r == "ml-IN" <==> l == Ml
  {
    match l
    case En => "en-US"
    case Ml => "ml-IN"
  }

  /** The text read aloud for a card: `<title>. <action>.` */
  function AdvisoryText(title: string, action: string): string {
    title + ". " + action + "."
  }

  /**
   * Cards whose titles have no full stop have different texts unless title
   * and action both agree, so the text read aloud identifies its card.
   */
  lemma AdvisoryTextInjective(t1: string, a1: string, t2: string, a2: string)
    requires '.' !in t1 && '.' !in t2
    requires AdvisoryText(t1, a1) == AdvisoryText(t2, a2)
    ensures t1 == t2 && a1 == a2
  {
    AdvisoryTextParts(t1, a1);
    AdvisoryTextParts(t2, a2);
  }

  /** A card's microphone icon pulses while its own text is being read. */
  predicate Pulses(readingAloud: Option<string>, title: string, action: string) {
    readingAloud == Some(AdvisoryText(title, action))
  }

  /** While a card is read, the icon of that card pulses and no other card's does. */
  lemma OnlyReadCardPulses(t1: string, a1: string, t2: string, a2: string)
    requires '.' !in t1 && '.' !in t2
    ensures Pulses(Some(AdvisoryText(t1, a1)), t2, a2) <==> t1 == t2 && a1 == a2
  {
    if Pulses(Some(AdvisoryText(t1, a1)), t2, a2) {
      AdvisoryTextInjective(t1, a1, t2, a2);
    }
  }

  /** Where the title, the first full stop and the action sit in the text. */
  lemma AdvisoryTextParts(t: string, a: string)
    ensures var r := AdvisoryText(t, a);
      |r| == |t| + |a| + 3 && r[..|t|] == t && r[|t|] == '.' && r[|t| + 2..|r| - 1] == a
      && forall k :: 0 <= k < |t| ==> r[k] == t[k]
  {
  }

  /** `disabled={readingAloud !== null}`: as written, every card's button is disabled while one is read. */
  predicate ButtonEnabled(readingAloud: Option<string>, text: string) {
    readingAloud.None?
  }

  /** Evidently intended: the card being read keeps its button, so that a second press stops it. */
  predicate ButtonEnabledIntended(readingAloud: Option<string>, text: string) {
    readingAloud.None? || readingAloud == Some(text)
  }

  /** The reading state after pressing a card's button, if the button takes the press. */
  function Press(enabled: bool, readingAloud: Option<string>, text: string): Option<string> {
    if !enabled then readingAloud
    else if readingAloud == Some(text) then None
    else Some(text)
  }

  /** As written, no press ever stops a reading: the stop branch of the handler cannot run. */
  lemma PressNeverStopsAsWritten(readingAloud: Option<string>, text: string)
    ensures readingAloud.Some? ==> Press(ButtonEnabled(readingAloud, text), readingAloud, text) == readingAloud
    ensures Press(ButtonEnabled(readingAloud, text), readingAloud, text).Some?
  {
  }

  /**
   * With the intended enabling, pressing the card being read stops it, a
   * press on another card while one is read is ignored, and an idle press
   * starts reading.
   */
  lemma PressStopsIntended(readingAloud: Option<string>, text: string)
    ensures readingAloud == Some(text) ==> Press(ButtonEnabledIntended(readingAloud, text), readingAloud, text).None?
    ensures readingAloud.Some? && readingAloud != Some(text) ==>
      Press(ButtonEnabledIntended(readingAloud, text), readingAloud, text) == readingAloud
    ensures readingAloud.None? ==> Press(ButtonEnabledIntended(readingAloud, text), readingAloud, text) == Some(text)
  {
  }

  /** The read-aloud state of the advisory cards. */
  class ReadAloud {
    var readingAloud: Option<string>
    /** The speech requests made so far: text and language code. */
    var requests: seq<(string, string)>
    /** The translation keys of the error toasts shown. */
    var toasts: seq<string>

    constructor()
      ensures readingAloud.None? && requests == [] && toasts == []
    {
      readingAloud := None;
      requests := [];
      toasts := [];
    }

    /**
     * `handleReadAloud`: asked for the text being read, reading stops;
     * otherwise that text is being read and speech is requested for it in
     * the session's language.
     */
    method HandleReadAloud(text: string, language: Language)
      modifies this
      ensures readingAloud == Press(true, old(readingAloud), text)
      ensures old(readingAloud) == Some(text) ==> requests == old(requests)
      ensures old(readingAloud) != Some(text) ==> requests == old(requests) + [(text, TtsLanguage(language))]
      ensures toasts == old(toasts)
    {
      if readingAloud == Some(text) {
        readingAloud := None;
        return;
      }
      readingAloud := Some(text);
      requests := requests + [(text, if language == En then "en-US" else "ml-IN")];
    }

    /** The audio has played to its end. */
    method SpeechEnded()
      modifies this
      ensures readingAloud.None? && requests == old(requests) && toasts == old(toasts)
    {
      readingAloud := None;
    }

    /** Speech synthesis failed: an error toast, and reading stops. */
    method SpeechFailed()
      modifies this
      ensures readingAloud.None? && requests == old(requests)
      ensures toasts == old(toasts) + ["dashboard.page.ttsError.title"]
    {
      toasts := toasts + ["dashboard.page.ttsError.title"];
      readingAloud := None;
    }
  }
}
