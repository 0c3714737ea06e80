/** The three interface languages (`Language` in LanguageSelector.tsx) and the
    request keys the edge functions receive for them. */
module Languages {
  import opened Wrappers

  datatype Language = Hindi | Hinglish | English

  /** The key a client sends for each language. */
  function Key(l: Language): string {
    match l
    case Hindi => "hindi"
    case Hinglish => "hinglish"
    case English => "english"
  }

  /** The language a request key names, if it names one. */
  function FromKey(k: string): (r: Option<Language>)
    ensures r.Some? ==> Key(r.value) == k
    ensures r.None? ==> forall l: Language :: Key(l) != k
  {
    if k == "hindi" then Some(Hindi)
    else if k == "hinglish" then Some(Hinglish)
    else if k == "english" then Some(English)
    else None
  }

  /** Every language survives the trip through its key. */
  lemma KeyRoundTrip(l: Language)
    ensures FromKey(Key(l)) == Some(l)
  {
  }
}
