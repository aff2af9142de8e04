/**
 * The language selector: a fixed table of supported languages, the label of the selector
 * button, the highlighted option and the change requested by a click on an option.
 */
module LanguageSelector {
  import opened Wrappers
  import opened Js

  datatype Language = Language(code: string, name: string)

  const Languages: seq<Language> := [
    Language("en", "English"),
    Language("fr", "Français"),
    Language("pt", "Português")
  ]

  /** The button label when the current language is not in the table. */
  const Fallback: string := "Language"

  /** The supported codes are pairwise distinct and every name is non-empty. */
  lemma TableWellFormed()
    ensures forall i, j :: 0 <= i < j < |Languages| ==> Languages[i].code != Languages[j].code
    ensures forall i :: 0 <= i < |Languages| ==> Languages[i].name != ""
  {
  }

  predicate IsCurrent(current: string, lang: Language) {
    current == lang.code
  }

  predicate Listed(current: string) {
    exists i :: 0 <= i < |Languages| && IsCurrent(current, Languages[i])
  }

  /** The button label: the name of the language whose code is current, else "Language". */
  function CurrentName(current: string): (shown: string)
    ensures forall i :: 0 <= i < |Languages| && IsCurrent(current, Languages[i]) ==> shown == Languages[i].name
    ensures !Listed(current) ==> shown == Fallback
  {
    TableWellFormed();
    match Find(Languages, (l: Language) => l.code == current)
    case Some(i) => if Languages[i].name != "" then Languages[i].name else Fallback
    case None => Fallback
  }

  /** One option as rendered: its code, its label and whether it is highlighted. */
  datatype OptionView = OptionView(code: string, text: string, highlighted: bool)

  /** The options of the menu, one per table entry, in table order. */
  function Options(current: string): (opts: seq<OptionView>)
    ensures |opts| == |Languages|
    ensures forall i :: 0 <= i < |opts| ==>
      opts[i].code == Languages[i].code && opts[i].text == Languages[i].name
    ensures forall i :: 0 <= i < |opts| ==> (opts[i].highlighted <==> IsCurrent(current, Languages[i]))
  {
    seq(|Languages|, i requires 0 <= i < |Languages| =>
      OptionView(Languages[i].code, Languages[i].name, IsCurrent(current, Languages[i])))
  }

  /** The indices of the highlighted options. */
  function Highlighted(current: string): (s: set<nat>)
    ensures forall i: nat :: i in s <==> i < |Languages| && IsCurrent(current, Languages[i])
  {
    set i: nat | i < |Languages| && IsCurrent(current, Languages[i])
  }

  /** Exactly one option is highlighted when the current language is listed, none otherwise. */
  lemma {:induction false} HighlightCount(current: string)
    ensures Listed(current) ==> |Highlighted(current)| == 1
    ensures !Listed(current) ==> Highlighted(current) == {}
  {
    TableWellFormed();
    var s := Highlighted(current);
    if Listed(current) {
      var i :| 0 <= i < |Languages| && IsCurrent(current, Languages[i]);
      assert s == {i} by {
        forall k | k in s ensures k == i {}
        assert i in s;
      }
    } else {
      forall k | k in s ensures false {}
    }
  }

  /** A click on option `i` requests a change to that option's code. */
  function OnSelect(i: nat): (requested: string)
    requires i < |Languages|
    ensures requested == Languages[i].code
    ensures Listed(requested)
    ensures Options(requested)[i].highlighted
  {
    Languages[i].code
  }

  /**
   * Once the requested change takes effect, the button shows the chosen language and only
   * its option is highlighted.
   */
  lemma SelectThenShow(i: nat)
    requires i < |Languages|
    ensures CurrentName(OnSelect(i)) == Languages[i].name
    ensures Highlighted(OnSelect(i)) == {i}
  {
  }
}
