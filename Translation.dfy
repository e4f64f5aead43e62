/** The phrase translator: two fixed phrase tables ("en-es" and "en-fr"),
    looked up directly, then in reverse, then answered with a placeholder;
    and the screen's translate and swap buttons. The one-second delay before
    the answer appears is left out: the answer is computed when the button
    is pressed. */
module Translation {
  import opened Common

  /** One phrase table, in its declaration order: (source phrase, translation). */
  type Table = seq<(string, string)>

  const EnEs: Table := [
    ("I'm feeling anxious today", "Me siento ansioso/a hoy"),
    ("I need someone to talk to", "Necesito hablar con alguien"),
    ("I'm experiencing panic attacks", "Estoy teniendo ataques de pánico"),
    ("I feel overwhelmed", "Me siento abrumado/a"),
    ("I'm having trouble sleeping", "Tengo problemas para dormir"),
    ("I need professional help", "Necesito ayuda profesional"),
    ("I'm feeling depressed", "Me siento deprimido/a"),
    ("I need emotional support", "Necesito apoyo emocional"),
    ("Hello", "Hola"),
    ("How are you?", "¿Cómo estás?"),
    ("Thank you", "Gracias"),
    ("Please help me", "Por favor ayúdame")
  ]

  const EnFr: Table := [
    ("I'm feeling anxious today", "Je me sens anxieux/anxieuse aujourd'hui"),
    ("I need someone to talk to", "J'ai besoin de parler à quelqu'un"),
    ("I'm experiencing panic attacks", "J'ai des crises de panique"),
    ("I feel overwhelmed", "Je me sens débordé(e)"),
    ("I'm having trouble sleeping", "J'ai des problèmes de sommeil"),
    ("I need professional help", "J'ai besoin d'aide professionnelle"),
    ("I'm feeling depressed", "Je me sens déprimé(e)"),
    ("I need emotional support", "J'ai besoin de soutien émotionnel"),
    ("Hello", "Bonjour"),
    ("How are you?", "Comment allez-vous?"),
    ("Thank you", "Merci"),
    ("Please help me", "Aidez-moi s'il vous plaît")
  ]

  /** The tables object, indexed by `from-to` key. */
  function TableFor(key: string): (t: Option<Table>)
    ensures t.Some? <==> key == "en-es" || key == "en-fr"
  {
    if key == "en-es" then Some(EnEs)
    else if key == "en-fr" then Some(EnFr)
    else None
  }

  /** The template-literal key `${from}-${to}`. */
  function PairKey(from: string, to: string): string {
    from + "-" + to
  }

  /** Property access `table[text]`: the value stored under `text`. */
  function Lookup(t: Table, text: string): (r: Option<string>)
    ensures r.Some? <==> exists i :: 0 <= i < |t| && t[i].0 == text
    ensures r.Some? ==> (text, r.value) in t
  {
    if t == [] then None
    else if t[0].0 == text then Some(t[0].1)
    else Lookup(t[1..], text)
  }

  /** The reverse search: the first key, in table order, whose value is `text`. */
  function ReverseLookup(t: Table, text: string): (r: Option<string>)
    ensures r.Some? <==> exists i :: 0 <= i < |t| && t[i].1 == text
    ensures r.Some? ==> exists i :: 0 <= i < |t| && t[i] == (r.value, text)
                                    && forall j :: 0 <= j < i ==> t[j].1 != text
  {
    if t == [] then None
    else if t[0].1 == text then Some(t[0].0)
    else
      var r := ReverseLookup(t[1..], text);
      assert r.Some? ==> exists i :: 1 <= i < |t| && t[i] == (r.value, text)
                                   && forall j :: 0 <= j < i ==> t[j].1 != text by {
        if r.Some? {
          var i :| 0 <= i < |t[1..]| && t[1..][i] == (r.value, text)
                   && forall j :: 0 <= j < i ==> t[1..][j].1 != text;
          assert forall j :: 1 <= j < i + 1 ==> t[j] == t[1..][j - 1];
        }
      }
      r
  }

  function Fallback(text: string): string {
    "[Translated: " + text + "]"
  }

  /** `mockTranslate`: a direct hit with a non-empty value, else the reverse
      table's first match, else the placeholder. */
  function Translate(text: string, from: string, to: string): (r: string)
    ensures r != ""
  {
    TablesNonEmptyKeys();
    var direct := TableFor(PairKey(from, to));
    var reverse := TableFor(PairKey(to, from));
    if direct.Some? && Lookup(direct.value, text).Some? && Lookup(direct.value, text).value != "" then
      Lookup(direct.value, text).value
    else if reverse.Some? && ReverseLookup(reverse.value, text).Some? then
      ReverseLookup(reverse.value, text).value
    else
      Fallback(text)
  }

  /** The `for … of` loop of `mockTranslate` over the reverse table: the
      first key whose value is `text`. */
  method ReverseSearch(entries: Table, text: string) returns (r: Option<string>)
    ensures r == ReverseLookup(entries, text)
  {
    var i := 0;
    while i < |entries|
      invariant 0 <= i <= |entries|
      invariant ReverseLookup(entries, text) == ReverseLookup(entries[i..], text)
    {
      if entries[i].1 == text {
        return Some(entries[i].0);
      }
      assert entries[i..][1..] == entries[i + 1..];
      i := i + 1;
    }
    return None;
  }

  /** `mockTranslate` as written: direct table, then the reverse search, then the fallback. */
  method MockTranslate(text: string, from: string, to: string) returns (r: string)
    ensures r == Translate(text, from, to)
  {
    var direct := TableFor(PairKey(from, to));
    if direct.Some? {
      var hit := Lookup(direct.value, text);
      if hit.Some? && hit.value != "" {
        return hit.value;
      }
    }
    var reverse := TableFor(PairKey(to, from));
    if reverse.Some? {
      var found := ReverseSearch(reverse.value, text);
      if found.Some? {
        return found.value;
      }
    }
    return Fallback(text);
  }

  // ------------------------------------------------------------- properties

  predicate DistinctKeys(t: Table) {
    forall i, j :: 0 <= i < j < |t| ==> t[i].0 != t[j].0
  }

  predicate DistinctValues(t: Table) {
    forall i, j :: 0 <= i < j < |t| ==> t[i].1 != t[j].1
  }

  /** With distinct keys, the lookup of the i-th key is the i-th value. */
  lemma {:induction false} LookupAt(t: Table, i: nat)
    requires i < |t| && DistinctKeys(t)
    ensures Lookup(t, t[i].0) == Some(t[i].1)
  {
    if i > 0 {
      assert t[1..][i - 1] == t[i];
      LookupAt(t[1..], i - 1);
    }
  }

  /** With distinct values, the reverse search for the i-th value finds the i-th key. */
  lemma {:induction false} ReverseLookupAt(t: Table, i: nat)
    requires i < |t| && DistinctValues(t)
    ensures ReverseLookup(t, t[i].1) == Some(t[i].0)
  {
    if i > 0 {
      assert t[1..][i - 1] == t[i];
      ReverseLookupAt(t[1..], i - 1);
    }
  }

  lemma SpanishKeysDistinct() ensures DistinctKeys(EnEs) {}
  lemma SpanishValuesDistinct() ensures DistinctValues(EnEs) {}
  lemma FrenchKeysDistinct() ensures DistinctKeys(EnFr) {}
  lemma FrenchValuesDistinct() ensures DistinctValues(EnFr) {}

  /** No key holds an empty translation, so a direct hit is always taken. */
  lemma TablesNonEmptyKeys()
    ensures forall i :: 0 <= i < |EnEs| ==> EnEs[i].0 != ""
    ensures forall i :: 0 <= i < |EnFr| ==> EnFr[i].0 != ""
  {
  }

  lemma TablesNonEmptyValues()
    ensures forall i :: 0 <= i < |EnEs| ==> EnEs[i].1 != ""
    ensures forall i :: 0 <= i < |EnFr| ==> EnFr[i].1 != ""
  {
  }

  /** A table with distinct keys and values, and no table the other way,
      translates each of its phrases there and back. */
  lemma RoundTripVia(t: Table, i: nat, from: string, to: string)
    requires TableFor(PairKey(from, to)) == Some(t) && TableFor(PairKey(to, from)) == None
    requires DistinctKeys(t) && DistinctValues(t) && i < |t| && t[i].1 != ""
    ensures Translate(t[i].0, from, to) == t[i].1
    ensures Translate(t[i].1, to, from) == t[i].0
  {
    LookupAt(t, i);
    ReverseLookupAt(t, i);
  }

  /** The only way to spell a table key: "en" then the other language. */
  lemma {:induction false} PairKeyOfTable(from: string, to: string)
    requires TableFor(PairKey(from, to)).Some?
    ensures from == "en" && (to == "es" || to == "fr")
  {
    var k := PairKey(from, to);
    assert k[|from|] == '-';
    assert forall j :: 0 <= j < |k| && j != 2 ==> k[j] != '-';
    assert |from| == 2;
    assert from == k[..2];
    assert to == k[3..];
  }

  /** Pairs without a table in either direction always get the placeholder;
      that is every pair in which English does not take part. */
  lemma NoEnglishFallsBack(text: string, from: string, to: string)
    requires from != "en" && to != "en"
    ensures Translate(text, from, to) == Fallback(text)
  {
    if TableFor(PairKey(from, to)).Some? {
      PairKeyOfTable(from, to);
    }
    if TableFor(PairKey(to, from)).Some? {
      PairKeyOfTable(to, from);
    }
  }

  /** Translating a table phrase from English and back returns the phrase. */
  lemma RoundTripSpanish(i: nat)
    requires i < |EnEs|
    ensures Translate(EnEs[i].0, "en", "es") == EnEs[i].1
    ensures Translate(EnEs[i].1, "es", "en") == EnEs[i].0
  {
    SpanishKeysDistinct();
    SpanishValuesDistinct();
    TablesNonEmptyValues();
    assert PairKey("en", "es") == "en-es";
    assert PairKey("es", "en") == "es-en";
    RoundTripVia(EnEs, i, "en", "es");
  }

  lemma RoundTripFrench(i: nat)
    requires i < |EnFr|
    ensures Translate(EnFr[i].0, "en", "fr") == EnFr[i].1
    ensures Translate(EnFr[i].1, "fr", "en") == EnFr[i].0
  {
    FrenchKeysDistinct();
    FrenchValuesDistinct();
    TablesNonEmptyValues();
    assert PairKey("en", "fr") == "en-fr";
    assert PairKey("fr", "en") == "fr-en";
    RoundTripVia(EnFr, i, "en", "fr");
  }

  // ------------------------------------------------------------- the screen

  datatype Texts = Texts(sourceText: string, translatedText: string, fromLanguage: string,
                         toLanguage: string)

  const InitialTexts := Texts("", "", "en", "es")

  /** `swapLanguages`: the languages always trade places; the texts only when both are non-empty. */
  function Swap(s: Texts): (t: Texts)
    ensures t.fromLanguage == s.toLanguage && t.toLanguage == s.fromLanguage
    ensures s.sourceText != "" && s.translatedText != "" ==>
      t.sourceText == s.translatedText && t.translatedText == s.sourceText
    ensures s.sourceText == "" || s.translatedText == "" ==>
      t.sourceText == s.sourceText && t.translatedText == s.translatedText
  {
    var t := s.(fromLanguage := s.toLanguage, toLanguage := s.fromLanguage);
    if s.sourceText != "" && s.translatedText != "" then
      t.(sourceText := s.translatedText, translatedText := s.sourceText)
    else t
  }

  lemma SwapTwiceRestores(s: Texts)
    ensures Swap(Swap(s)) == s
  {
  }

  /** `handleTranslate` together with the answer it schedules. */
  function Translated(s: Texts): (t: Texts)
    ensures IsBlank(s.sourceText) ==> t == s
    ensures !IsBlank(s.sourceText) ==>
      t == s.(translatedText := Translate(s.sourceText, s.fromLanguage, s.toLanguage))
  {
    if IsBlank(s.sourceText) then s
    else s.(translatedText := Translate(s.sourceText, s.fromLanguage, s.toLanguage))
  }

  class TranslationScreen {
    var texts: Texts

    constructor ()
      ensures texts == InitialTexts
    {
      texts := InitialTexts;
    }

    /** Typing in the source box, or picking a quick phrase. */
    method SetSourceText(text: string)
      modifies this
      ensures texts == old(texts).(sourceText := text)
    {
      texts := texts.(sourceText := text);
    }

    method SetLanguages(from: string, to: string)
      modifies this
      ensures texts == old(texts).(fromLanguage := from, toLanguage := to)
    {
      texts := texts.(fromLanguage := from, toLanguage := to);
    }

    method HandleTranslate()
      modifies this
      ensures texts == Translated(old(texts))
    {
      if IsBlank(texts.sourceText) {
        return;
      }
      var answer := MockTranslate(texts.sourceText, texts.fromLanguage, texts.toLanguage);
      texts := texts.(translatedText := answer);
    }

    method SwapLanguages()
      modifies this
      ensures texts == Swap(old(texts))
    {
      var temp := texts.fromLanguage;
      texts := texts.(fromLanguage := texts.toLanguage, toLanguage := temp);
      if texts.sourceText != "" && texts.translatedText != "" {
        texts := texts.(sourceText := texts.translatedText, translatedText := texts.sourceText);
      }
    }
  }
}
