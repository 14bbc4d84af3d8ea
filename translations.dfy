/** The translation table of `botlib/translations.py` and its lookup. */
module Translations {
  import opened Wrappers

  /** The table: message key, then language code, then text. */
  const Table: map<string, map<string, string>> :=
    map[
      "hello" := map["en" := "Hello", "fa" := "سلام"],
      "bye" := map["en" := "Goodbye", "fa" := "خداحافظ"]
    ]

  /**
   * `tr(key, lang='en')`: the nested lookup `TRANSLATIONS.get(key, {}).get(lang, key)`.
   * It has no precondition, so it is total: every key and language gives a string.
   */
  function Tr(key: string, lang: string := "en"): (r: string)
    ensures key in Table && lang in Table[key] ==> r == Table[key][lang]
    ensures key !in Table ==> r == key
    ensures key in Table && lang !in Table[key] ==> r == key
  {
    Get(Get(Table, key, map[]), lang, key)
  }

  /** Both keys of the table are translated into both languages, English by default. */
  lemma TableContents()
    ensures Tr("hello") == "Hello" && Tr("hello", "fa") == "سلام"
    ensures Tr("bye") == "Goodbye" && Tr("bye", "fa") == "خداحافظ"
    ensures Tr("welcome", "fa") == "welcome" && Tr("hello", "de") == "hello"
  {
  }
}
