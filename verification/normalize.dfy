/** Field-level normalisers of the mapping engine. */
module Normalize {
  import opened Text

  const BrazilCode: string := "BR"
  /** The lower-cased country names recognised as Brazil. */
  const BrazilAliases: seq<string> := ["brasil", "brazil"]

  const ConsentTrue: string := "True"
  const OptIn: string := "Opt_in"
  const OptOut: string := "Opt_out"

  /** `map_country_to_code`: the ISO code of a recognised country name,
      otherwise the empty string. */
  function CountryCode(country: string): (r: string)
    ensures r == BrazilCode || r == ""
    ensures r == BrazilCode <==>
      SpellsIgnoringCase(country, "brasil") || SpellsIgnoringCase(country, "brazil")
  {
    LowerMatchesWord(country, "brasil");
    LowerMatchesWord(country, "brazil");
    if Lower(country) in BrazilAliases then BrazilCode else ""
  }

  /** `get_consent_status`: only the exact text "True" opts in. */
  function ConsentStatus(consent: string): (r: string)
    ensures r == OptIn || r == OptOut
    ensures r == OptIn <==> consent == ConsentTrue
  {
    if consent == ConsentTrue then OptIn else OptOut
  }

  /** The comparison is case-sensitive: other spellings of true opt out. */
  lemma ConsentExamples()
    ensures ConsentStatus("True") == OptIn
    ensures ConsentStatus("true") == OptOut
    ensures ConsentStatus("TRUE") == OptOut
    ensures ConsentStatus("False") == OptOut
    ensures ConsentStatus("") == OptOut
  {
  }

  /** Any mix of letter cases of either alias maps to "BR"; a near miss
      does not. */
  lemma CountryExamples()
    ensures CountryCode("Brasil") == BrazilCode
    ensures CountryCode("BRAZIL") == BrazilCode
    ensures CountryCode("bRaSiL") == BrazilCode
  {
    assert SpellsIgnoringCase("Brasil", "brasil");
    assert SpellsIgnoringCase("BRAZIL", "brazil");
    assert SpellsIgnoringCase("bRaSiL", "brasil");
  }
}
