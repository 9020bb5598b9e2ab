/** The validators of the `shared` package: the three fixed-length CEP
    patterns and membership in the three constant name lists. All are total
    and pure. */
module Shared {
  import opened Wrappers

  /** The one message every CEP pattern check reports on rejection. */
  const CepFormatError := "cep must have 8 digits, optionally with '-'"

  /** The 27 short state codes, in the order the source lists them. */
  const StatesShort: seq<string> := [
    "AC", "AL", "AP", "AM", "BA", "CE", "DF", "ES", "GO", "MA", "MT", "MS", "MG", "PA",
    "PB", "PR", "PE", "PI", "RJ", "RN", "RS", "RO", "RR", "SC", "SP", "SE", "TO"]

  /** The long state names, spelled exactly as the source spells them
      ("Espirito Santo", "Paraí", "Piaú"). */
  const StatesLong: seq<string> := [
    "Acre", "Alagoas", "Amapá", "Amazonas", "Bahia", "Ceará", "Distrito Federal",
    "Espirito Santo", "Goiás", "Maranhão", "Mato Grosso", "Mato Grosso do Sul",
    "Minas Gerais", "Paraí", "Pará", "Paraná", "Pernambuco", "Piaú", "Rio de Janeiro",
    "Rio Grande do Norte", "Rio Grande do Sul", "Rondônia", "Roraima", "Santa Catarina",
    "São Paulo", "Sergipe", "Tocantins"]

  /** The five regions. */
  const Regioes: seq<string> := ["Sul", "Sudeste", "Centro-Oeste", "Norte", "Nordeste"]

  // ---------------------------------------------------------------------
  // The three regular expressions, as character-class predicates.
  // Go's `\d` matches only the ASCII digits, and `^`/`$` anchor at the
  // ends of the whole text.
  // ---------------------------------------------------------------------

  /** `\d` */
  predicate IsDigit(ch: char) {
    '0' <= ch <= '9'
  }

  /** `\d*` over the whole of `s` */
  predicate AllDigits(s: string) {
    forall i :: 0 <= i < |s| ==> IsDigit(s[i])
  }

  /** `^\d{8}$` */
  predicate MatchesWithoutDash(s: string) {
    |s| == 8 && AllDigits(s)
  }

  /** `^\d{5}-\d{3}$` */
  predicate MatchesWithDash(s: string) {
    |s| == 9 && AllDigits(s[..5]) && s[5] == '-' && AllDigits(s[6..])
  }

  /** `^\d{5}-?\d{3}$`: five digits, then `-?\d{3}`, which is either three
      digits or a dash and three digits. */
  predicate MatchesOptionalDash(s: string) {
    && 5 <= |s|
    && AllDigits(s[..5])
    && var t := s[5..];
       (|t| == 3 && AllDigits(t)) || (|t| == 4 && t[0] == '-' && AllDigits(t[1..]))
  }

  /** Go's `(bool, error)` answer of a CEP check. */
  function Verdict(matched: bool): (r: (bool, Option<string>))
    ensures r.0 == matched
    ensures r.0 <==> r.1 == None
    ensures !r.0 ==> r.1 == Some(CepFormatError)
  {
    if matched then (true, None) else (false, Some(CepFormatError))
  }

  /** The optional-dash pattern is exactly the union of the two others. */
  lemma OptionalDashIsUnion(s: string)
    ensures MatchesOptionalDash(s) <==> MatchesWithDash(s) || MatchesWithoutDash(s)
  {
    if |s| == 8 {
      if AllDigits(s) {
        assert AllDigits(s[..5]) && AllDigits(s[5..]) by {
          assert forall i :: 0 <= i < 5 ==> s[..5][i] == s[i];
          assert forall i :: 0 <= i < 3 ==> s[5..][i] == s[5 + i];
        }
      }
      if MatchesOptionalDash(s) {
        forall i | 0 <= i < 8 ensures IsDigit(s[i]) {
          if i < 5 { assert s[i] == s[..5][i]; } else { assert s[i] == s[5..][i - 5]; }
        }
      }
    } else if |s| == 9 {
      assert s[5..][0] == s[5];
      assert s[5..][1..] == s[6..];
    }
  }

  /** `ValidateCep`: `^\d{5}-?\d{3}$`, eight digits with an optional dash
      after the fifth. */
  function ValidateCep(cep: string): (r: (bool, Option<string>))
    ensures r.0 <==> r.1 == None
    ensures !r.0 ==> r.1 == Some(CepFormatError)
    ensures r.0 <==> ValidateCepWithDash(cep).0 || ValidateCepWithoutDash(cep).0
  {
    OptionalDashIsUnion(cep);
    Verdict(MatchesOptionalDash(cep))
  }

  /** `^\d{5}-\d{3}$` read position by position. */
  lemma WithDashByPosition(s: string)
    ensures MatchesWithDash(s) <==>
              |s| == 9 && s[5] == '-' && forall i :: 0 <= i < 9 && i != 5 ==> IsDigit(s[i])
  {
    if |s| == 9 {
      assert forall i :: 0 <= i < 5 ==> s[..5][i] == s[i];
      assert forall i :: 6 <= i < 9 ==> s[6..][i - 6] == s[i];
    }
  }

  /** `ValidateCepWithDash`: `^\d{5}-\d{3}$`, nine characters of which
      the sixth is a dash and all others are digits. */
  function ValidateCepWithDash(cep: string): (r: (bool, Option<string>))
    ensures r.0 <==> r.1 == None
    ensures !r.0 ==> r.1 == Some(CepFormatError)
    ensures r.0 <==> |cep| == 9 && cep[5] == '-' &&
                     forall i :: 0 <= i < 9 && i != 5 ==> IsDigit(cep[i])
  {
    WithDashByPosition(cep);
    Verdict(MatchesWithDash(cep))
  }

  /** `ValidateCepWithoutDash`: `^\d{8}$`, exactly eight ASCII digits. */
  function ValidateCepWithoutDash(cep: string): (r: (bool, Option<string>))
    ensures r.0 <==> r.1 == None
    ensures !r.0 ==> r.1 == Some(CepFormatError)
    ensures r.0 <==> |cep| == 8 && forall i :: 0 <= i < 8 ==> '0' <= cep[i] <= '9'
  {
    Verdict(MatchesWithoutDash(cep))
  }

  /** No text whose length is neither 8 nor 9 passes any of the three CEP
      checks, e.g. the seven-digit "3940807". */
  lemma CepLengthIsEightOrNine(cep: string)
    requires |cep| != 8 && |cep| != 9
    ensures !ValidateCep(cep).0 && !ValidateCepWithDash(cep).0 && !ValidateCepWithoutDash(cep).0
  {
  }

  /** Upper-case ASCII letter. */
  predicate IsUpper(ch: char) {
    'A' <= ch <= 'Z'
  }

  /** `ValidateStateShort`: membership in the 27 short codes, every one of
      which is two upper-case letters; so "M" or any text of another
      length is rejected. */
  function ValidateStateShort(state: string): (r: bool)
    ensures r <==> exists i :: 0 <= i < |StatesShort| && StatesShort[i] == state
    ensures r ==> |state| == 2 && IsUpper(state[0]) && IsUpper(state[1])
  {
    state in StatesShort
  }

  /** `ValidateStateLong`: membership in the long-name list as spelled. */
  function ValidateStateLong(state: string): (r: bool)
    ensures r <==> exists i :: 0 <= i < |StatesLong| && StatesLong[i] == state
    ensures r ==> state != "" && IsUpper(state[0])
  {
    state in StatesLong
  }

  /** `ValidateRegiao`: membership in the five region names. */
  function ValidateRegiao(regiao: string): (r: bool)
    ensures r <==> exists i :: 0 <= i < |Regioes| && Regioes[i] == regiao
    ensures r ==> regiao != "" && IsUpper(regiao[0])
  {
    regiao in Regioes
  }

  /** The short list holds 27 distinct codes. */
  lemma StatesShortDistinct()
    ensures |StatesShort| == 27
    ensures forall i, j :: 0 <= i < j < |StatesShort| ==> StatesShort[i] != StatesShort[j]
  {
  }

  /** The long-name list as written accepts "Piaú", "Paraí" and
      "Espirito Santo". */
  lemma LongNamesAsWritten()
    ensures ValidateStateLong("Piaú") && ValidateStateLong("Paraí") && ValidateStateLong("Espirito Santo")
  {
  }

  /** The long-name list has no "Piauí". */
  lemma NoPiaui()
    ensures !ValidateStateLong("Piauí")
  {
  }

  /** The long-name list has no "Paraíba". */
  lemma NoParaiba()
    ensures !ValidateStateLong("Paraíba")
  {
  }

  /** The long-name list has no "Espírito Santo" with its accent. */
  lemma NoEspiritoSantoAccented()
    ensures !ValidateStateLong("Espírito Santo")
  {
  }

  /** "MM" and "M" are not state codes; "MG" is. */
  lemma ShortCodesAsWritten()
    ensures !ValidateStateShort("MM") && !ValidateStateShort("M") && ValidateStateShort("MG")
  {
  }
}
