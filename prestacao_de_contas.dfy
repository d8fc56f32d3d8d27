/** The taxpayer classifier of the electoral-donation lookups
    (tse/prestacao_de_contas.py): an identifier is read as a CNPJ first and, only
    when that is not a valid CNPJ, as a CPF; if neither is valid, ValueError is
    raised. Every donation lookup classifies its argument before it opens a
    session, and queries the remote service with the plain digits of the result. */
module PrestacaoDeContas {
  import opened Builtins
  import opened Mod11
  import CnpjNumber
  import CpfNumber

  /** What pessoa_or_valueerror returns: a corporate (Cnpj) or an individual (Cpf) identifier. */
  datatype Pessoa = Juridica(cnpj: CnpjNumber.Cnpj) | Fisica(cpf: CpfNumber.Cpf) {

    /** pessoa.valido() for whichever kind this is. */
    predicate Valid() {
      match this
      case Juridica(c) => c.Valid()
      case Fisica(c) => c.Valid()
    }

    /** pessoa.plain() for whichever kind this is. */
    function Plain(): string {
      match this
      case Juridica(c) => c.Plain()
      case Fisica(c) => c.Plain()
    }
  }

  /** Cnpj(raw) parses and is a valid CNPJ. */
  predicate ValidCnpj(raw: Raw) {
    CnpjNumber.Init(raw).Success? && CnpjNumber.Init(raw).value.Valid()
  }

  /** Cpf(raw) parses and is a valid CPF. */
  predicate ValidCpf(raw: Raw) {
    CpfNumber.Init(raw).Success? && CpfNumber.Init(raw).value.Valid()
  }

  /** pessoa_or_valueerror (tse/prestacao_de_contas.py:33-39). A ValueError from
      either constructor is not caught: it propagates out of the classifier unchanged. */
  function PessoaOrValueError(raw: Raw): (r: Result<Pessoa>)
    ensures r.Success? ==> r.value.Valid()
    // CNPJ is tried first, whatever Cpf(raw) would give
    ensures ValidCnpj(raw) ==> r == Success(Juridica(CnpjNumber.Init(raw).value))
    // Cpf(raw) decides only when Cnpj(raw) parses but is not valid
    ensures r.Success? && r.value.Fisica? <==> !ValidCnpj(raw) && CnpjNumber.Init(raw).Success? && ValidCpf(raw)
    ensures r.Success? && r.value.Fisica? ==> r.value.cpf == CpfNumber.Init(raw).value
    // the three ways to fail
    ensures r == Failure(IntLiteral) <==> CnpjNumber.Init(raw).Failure?
    ensures r == Failure(CpfFormat) <==> CnpjNumber.Init(raw).Success? && !ValidCnpj(raw) && CpfNumber.Init(raw).Failure?
    ensures r == Failure(InvalidIdentifier) <==>
      CnpjNumber.Init(raw).Success? && !ValidCnpj(raw) && CpfNumber.Init(raw).Success? && !ValidCpf(raw)
  {
    var cnpj :- CnpjNumber.Init(raw);
    if cnpj.Valid() then Success(Juridica(cnpj))
    else
      var cpf :- CpfNumber.Init(raw);
      if cpf.Valid() then Success(Fisica(cpf))
      else Failure(InvalidIdentifier)
  }

  /** The three donation lookups of the module. */
  datatype Election = Election2004 | Election2006 | Election2008

  /** The request a lookup sends: the election's service, keyed by pessoa.plain()
      (a URL argument in 2004, a form field in 2006 and 2008). */
  datatype Query = Query(election: Election, key: string)

  /** The part of doador_2004, doador_2006 and doador_2008 before any network
      access (tse/prestacao_de_contas.py:58-62, 126-132, 171-178): the identifier
      is classified first, so a classification error ends the lookup before a
      Scraper is created; otherwise the query is keyed by the plain digits. */
  function StartLookup(election: Election, raw: Raw): (r: Result<Query>)
    ensures r.Success? <==> PessoaOrValueError(raw).Success?
    ensures r.Failure? ==> r.error == PessoaOrValueError(raw).error
    ensures r.Success? ==> r.value.election == election && r.value.key == PessoaOrValueError(raw).value.Plain()
  {
    var pessoa :- PessoaOrValueError(raw);
    Success(Query(election, pessoa.Plain()))
  }

  // ----- lemmas -----

  /** For text, the CNPJ stripping equals the CPF stripping when there is no '/'. */
  lemma StrippedAlike(s: string)
    requires '/' !in s
    ensures CnpjNumber.Stripped(s) == CpfNumber.Stripped(s)
  {
    CnpjNumber.StrippedIsReplaceChain(s);
    var t := Delete(Delete(s, '.'), '-');
    assert CpfNumber.Stripped(s) == DeleteAll(t, []);
    assert CnpjNumber.Stripped(s) == DeleteAll(Delete(t, '/'), []);
    DeleteAbsent(t, '/');
  }

  /** A text that is a valid CPF has exactly 11 digits once '.' and '-' are
      removed, and no '/'. */
  lemma ValidCpfText(s: string)
    requires ValidCpf(Text(s))
    ensures '/' !in s && |CpfNumber.Stripped(s)| == 11
  {
    if '/' in s {
      DeleteAllKeeps(s, CpfNumber.StripChars, '/');
    }
    var n := |CpfNumber.Stripped(s)|;
    if n < 11 {
      CpfNumber.ShortInputReplaced(Text(s));
    }
  }

  /** No text is both a valid CNPJ and a valid CPF. The order of the two tries
      still matters for text: see SlashedCnpjNeedsCnpjFirst. */
  lemma TextNeverAmbiguous(s: string)
    ensures !(ValidCnpj(Text(s)) && ValidCpf(Text(s)))
  {
    if ValidCpf(Text(s)) {
      ValidCpfText(s);
      StrippedAlike(s);
      CnpjNumber.StrippedIsReplaceChain(s);
      CnpjNumber.ShortInputReplaced(Text(s));
    }
  }

  /** Trying the CNPJ first matters even though no text is valid as both: a valid
      CNPJ written with its '/' is accepted, while Cpf raises on that '/'. */
  lemma SlashedCnpjNeedsCnpjFirst(s: string)
    requires ValidCnpj(Text(s)) && '/' in s
    ensures CpfNumber.Init(Text(s)) == Failure(CpfFormat)
    ensures PessoaOrValueError(Text(s)) == Success(Juridica(CnpjNumber.Init(Text(s)).value))
  {
    CpfNumber.InitFailsOnNonDigits(s);
  }

  /** '11.222.333/0001-81' is classified as a CNPJ, although Cpf of it raises. */
  lemma DoctestSlashedCnpj()
    ensures CpfNumber.Init(Text(CnpjNumber.ExamplePunctuated)) == Failure(CpfFormat)
    ensures PessoaOrValueError(Text(CnpjNumber.ExamplePunctuated))
      == Success(Juridica(CnpjNumber.Cnpj(CnpjNumber.ExampleDigits)))
  {
    ExampleIsValidCnpj();
    ExampleHasSlash();
    SlashedCnpjNeedsCnpjFirst(CnpjNumber.ExamplePunctuated);
  }

  lemma ExampleIsValidCnpj()
    ensures CnpjNumber.Init(Text(CnpjNumber.ExamplePunctuated)) == Success(CnpjNumber.Cnpj(CnpjNumber.ExampleDigits))
    ensures ValidCnpj(Text(CnpjNumber.ExamplePunctuated))
  {
    CnpjNumber.DoctestFromFormatted();
    CnpjNumber.DoctestValidity();
  }

  lemma ExampleHasSlash()
    ensures '/' in CnpjNumber.ExamplePunctuated
  {
    assert CnpjNumber.ExamplePunctuated[10] == '/';
  }

  /** A digit list is ambiguous only when it is empty: [] becomes 14 zeros as a
      CNPJ and 11 zeros as a CPF, both valid, and the CNPJ wins. */
  lemma EmptyListIsCnpj()
    ensures ValidCnpj(Digits([])) && ValidCpf(Digits([]))
    ensures PessoaOrValueError(Digits([])) == Success(Juridica(CnpjNumber.Cnpj(seq(14, _ => 0))))
  {
    CnpjNumber.ShortInputReplaced(Digits([]));
    CpfNumber.ShortInputReplaced(Digits([]));
  }

  lemma NonEmptyListNeverAmbiguous(ds: seq<int>)
    requires ds != []
    ensures !(ValidCnpj(Digits(ds)) && ValidCpf(Digits(ds)))
  {
    if |ds| < 11 {
      CpfNumber.ShortInputReplaced(Digits(ds));
    } else if |ds| < 14 {
      CnpjNumber.ShortInputReplaced(Digits(ds));
    }
  }

  /** The empty string is 14 zeros, a valid CNPJ (Cpf('') would have raised). */
  lemma EmptyTextIsCnpj()
    ensures PessoaOrValueError(Text("")) == Success(Juridica(CnpjNumber.Cnpj(seq(14, _ => 0))))
  {
    CnpjNumber.StrippedIsReplaceChain("");
    DeleteAllAbsent("", CnpjNumber.StripChars);
    CnpjNumber.ShortInputReplaced(Text(""));
  }

  /** A text with between 1 and 13 characters left after CNPJ stripping is never
      a CNPJ: it is classified exactly as Cpf(s) decides. */
  lemma ShortTextIsDecidedByCpf(s: string)
    requires 0 < |CnpjNumber.Stripped(s)| < 14
    ensures PessoaOrValueError(Text(s)) ==
      match CpfNumber.Init(Text(s))
      case Failure(e) => Failure(e)
      case Success(c) => if c.Valid() then Success(Fisica(c)) else Failure(InvalidIdentifier)
  {
    CnpjNumber.ShortInputReplaced(Text(s));
  }

  /** A text that is a valid CPF is classified as that CPF: Cnpj(s) parses, as
      it leaves only 11 characters, and is not valid. */
  lemma ValidCpfTextIsFisica(s: string)
    requires ValidCpf(Text(s))
    ensures PessoaOrValueError(Text(s)) == Success(Fisica(CpfNumber.Init(Text(s)).value))
  {
    ValidCpfText(s);
    StrippedAlike(s);
    TextNeverAmbiguous(s);
  }

  /** The plain digits of a valid CPF are classified as that CPF. */
  lemma ValidCpfIsFisica(c: CpfNumber.Cpf)
    requires c.Valid() && AllDecimal(c.digits)
    ensures PessoaOrValueError(Text(c.Plain())) == Success(Fisica(c))
  {
    CpfNumber.PlainRoundTrip(c);
    ValidCpfTextIsFisica(c.Plain());
  }

  /** The plain digits of a valid CNPJ are classified as that CNPJ. */
  lemma ValidCnpjIsJuridica(c: CnpjNumber.Cnpj)
    requires c.Valid() && AllDecimal(c.digits)
    ensures PessoaOrValueError(Text(c.Plain())) == Success(Juridica(c))
  {
    CnpjNumber.PlainRoundTrip(c);
  }

  /** A CPF written with a '/' is shorter than 14 once '.', '-' and '/' are gone,
      so it is handed to Cpf, which rejects the '/'. */
  lemma SlashedCpfRaises(s: string)
    requires 0 < |CnpjNumber.Stripped(s)| < 14 && '/' in s
    ensures PessoaOrValueError(Text(s)) == Failure(CpfFormat)
  {
    ShortTextIsDecidedByCpf(s);
    CpfNumber.InitFailsOnNonDigits(s);
  }

  /** A text identifier that is classified yields a query key of 11 or 14 digits,
      which is classified again as the same identifier. */
  lemma LookupKeyRoundTrip(election: Election, s: string)
    requires StartLookup(election, Text(s)).Success?
    ensures var key := StartLookup(election, Text(s)).value.key;
      IsDigit(key) && (|key| == 11 || |key| == 14) && PessoaOrValueError(Text(key)) == PessoaOrValueError(Text(s))
  {
    var p := PessoaOrValueError(Text(s)).value;
    match p
    case Juridica(c) =>
      IntListOfJoinStr(c.digits);
      ValidCnpjIsJuridica(c);
    case Fisica(c) =>
      IntListOfJoinStr(c.digits);
      ValidCpfIsFisica(c);
  }

  /** An identifier that is neither a valid CNPJ nor a valid CPF starts no lookup
      in any election, and the caller sees the classifier's error. */
  lemma InvalidStartsNoLookup(raw: Raw)
    requires !ValidCnpj(raw) && !ValidCpf(raw)
    ensures forall e :: StartLookup(e, raw).Failure?
    ensures forall e :: StartLookup(e, raw).error in {IntLiteral, CpfFormat, InvalidIdentifier}
  {
  }

  // ----- the identifiers of the lookup doctests (tse/prestacao_de_contas.py:47, 115, 164) -----

  const Donor2004Digits: seq<int> := [8, 5, 9, 0, 7, 0, 1, 2, 0, 0, 0, 1, 5, 7]
  const Donor2004Text: string := "85907012000157"
  const Donor2004Punctuated: string := "85.907.012/0001-57"

  const Donor2006Digits: seq<int> := [1, 8, 1, 9, 2, 9, 2, 0, 6, 1, 5]
  const Donor2006Text: string := "18192920615"
  const Donor2006Punctuated: string := "181.929.206-15"

  const Donor2008Digits: seq<int> := [0, 0, 0, 0, 0, 0, 0, 0, 0, 0, 0, 1, 9, 1]
  const Donor2008Text: string := "00000000000191"

  lemma DonorDigitsDecimal()
    ensures AllDecimal(Donor2004Digits) && AllDecimal(Donor2006Digits) && AllDecimal(Donor2008Digits)
  {
  }

  lemma Donor2004Plain()
    ensures CnpjNumber.Cnpj(Donor2004Digits).Plain() == Donor2004Text
  {
    DonorDigitsDecimal();
    JoinStrSpells(Donor2004Digits, Donor2004Text);
  }

  lemma Donor2004Layout()
    ensures var p := Donor2004Text;
      p[..2] + "." + p[2..5] + "." + p[5..8] + "/" + p[8..12] + "-" + p[12..] == Donor2004Punctuated
  {
    var p := Donor2004Text;
    assert p[..2] == "85" && p[2..5] == "907" && p[5..8] == "012";
    assert p[8..12] == "0001" && p[12..] == "57";
  }

  lemma Donor2004Parsed()
    ensures CnpjNumber.Init(Text(Donor2004Punctuated)) == Success(CnpjNumber.Cnpj(Donor2004Digits))
  {
    DonorDigitsDecimal();
    Donor2004Plain();
    CnpjNumber.FormattedFromPlain(CnpjNumber.Cnpj(Donor2004Digits));
    Donor2004Layout();
    CnpjNumber.FormattedRoundTrip(CnpjNumber.Cnpj(Donor2004Digits));
  }

  lemma Donor2004Sums()
    ensures ZipSum(Donor2004Digits[..12], CnpjNumber.Weights) == 171
    ensures ZipSum(Donor2004Digits[..13], [6] + CnpjNumber.Weights) == 158
  {
    assert Donor2004Digits[..12] == [8, 5, 9, 0, 7, 0, 1, 2, 0, 0, 0, 1];
    assert ZipSum([8, 5, 9, 0, 7, 0, 1, 2, 0, 0, 0, 1], [5, 4, 3, 2, 9, 8, 7, 6, 5, 4, 3, 2]) == 171;
    assert Donor2004Digits[..13] == [8, 5, 9, 0, 7, 0, 1, 2, 0, 0, 0, 1, 5];
    assert [6] + CnpjNumber.Weights == [6, 5, 4, 3, 2, 9, 8, 7, 6, 5, 4, 3, 2];
    assert ZipSum([8, 5, 9, 0, 7, 0, 1, 2, 0, 0, 0, 1, 5], [6, 5, 4, 3, 2, 9, 8, 7, 6, 5, 4, 3, 2]) == 158;
  }

  lemma Donor2004Valid()
    ensures CnpjNumber.Cnpj(Donor2004Digits).Valid()
  {
    Donor2004Sums();
    CnpjNumber.ValidBySums(CnpjNumber.Cnpj(Donor2004Digits), 171, 158);
    assert CheckDigit(171) == 5 && CheckDigit(158) == 7;
  }

  /** doador_2004('85.907.012/0001-57') queries the valid CNPJ 85907012000157. */
  lemma Lookup2004Doctest()
    ensures StartLookup(Election2004, Text(Donor2004Punctuated)) == Success(Query(Election2004, Donor2004Text))
  {
    Donor2004Parsed();
    Donor2004Valid();
    Donor2004Plain();
  }

  lemma Donor2006Plain()
    ensures CpfNumber.Cpf(Donor2006Digits).Plain() == Donor2006Text
  {
    DonorDigitsDecimal();
    JoinStrSpells(Donor2006Digits, Donor2006Text);
  }

  lemma Donor2006Layout()
    ensures var p := Donor2006Text;
      p[..3] + "." + p[3..6] + "." + p[6..9] + "-" + p[9..] == Donor2006Punctuated
  {
    var p := Donor2006Text;
    assert p[..3] == "181" && p[3..6] == "929" && p[6..9] == "206" && p[9..] == "15";
  }

  lemma Donor2006Parsed()
    ensures CpfNumber.Init(Text(Donor2006Punctuated)) == Success(CpfNumber.Cpf(Donor2006Digits))
  {
    DonorDigitsDecimal();
    Donor2006Plain();
    CpfNumber.FormattedFromPlain(CpfNumber.Cpf(Donor2006Digits));
    Donor2006Layout();
    CpfNumber.FormattedRoundTrip(CpfNumber.Cpf(Donor2006Digits));
  }

  lemma Donor2006Sums()
    ensures CpfNumber.WeightedSum(Donor2006Digits[..9]) == 230
    ensures CpfNumber.WeightedSum(Donor2006Digits[..10]) == 270
  {
    CpfNumber.WeightsSpelled();
    assert Donor2006Digits[..9] == [1, 8, 1, 9, 2, 9, 2, 0, 6];
    assert ZipSum([1, 8, 1, 9, 2, 9, 2, 0, 6], [10, 9, 8, 7, 6, 5, 4, 3, 2]) == 230;
    assert Donor2006Digits[..10] == [1, 8, 1, 9, 2, 9, 2, 0, 6, 1];
    assert ZipSum([1, 8, 1, 9, 2, 9, 2, 0, 6, 1], [11, 10, 9, 8, 7, 6, 5, 4, 3, 2]) == 270;
  }

  lemma Donor2006Valid()
    ensures CpfNumber.Cpf(Donor2006Digits).Valid()
  {
    Donor2006Sums();
    CpfNumber.ValidBySums(CpfNumber.Cpf(Donor2006Digits), 230, 270);
    assert CheckDigit(230) == 1 && CheckDigit(270) == 5;
  }

  /** doador_2006('181.929.206-15') queries the valid CPF 18192920615, after the
      CNPJ reading of the same text (three zeros) is found invalid. */
  lemma Lookup2006Doctest()
    ensures StartLookup(Election2006, Text(Donor2006Punctuated)) == Success(Query(Election2006, Donor2006Text))
  {
    Donor2006Parsed();
    Donor2006Valid();
    ValidCpfTextIsFisica(Donor2006Punctuated);
    Donor2006Plain();
  }

  lemma Donor2008Plain()
    ensures CnpjNumber.Cnpj(Donor2008Digits).Plain() == Donor2008Text
  {
    DonorDigitsDecimal();
    JoinStrSpells(Donor2008Digits, Donor2008Text);
  }

  lemma Donor2008Parsed()
    ensures CnpjNumber.Init(Text(Donor2008Text)) == Success(CnpjNumber.Cnpj(Donor2008Digits))
  {
    DonorDigitsDecimal();
    Donor2008Plain();
    CnpjNumber.PlainRoundTrip(CnpjNumber.Cnpj(Donor2008Digits));
  }

  lemma Donor2008Sums()
    ensures ZipSum(Donor2008Digits[..12], CnpjNumber.Weights) == 2
    ensures ZipSum(Donor2008Digits[..13], [6] + CnpjNumber.Weights) == 21
  {
    assert Donor2008Digits[..12] == [0, 0, 0, 0, 0, 0, 0, 0, 0, 0, 0, 1];
    assert ZipSum([0, 0, 0, 0, 0, 0, 0, 0, 0, 0, 0, 1], [5, 4, 3, 2, 9, 8, 7, 6, 5, 4, 3, 2]) == 2;
    assert Donor2008Digits[..13] == [0, 0, 0, 0, 0, 0, 0, 0, 0, 0, 0, 1, 9];
    assert [6] + CnpjNumber.Weights == [6, 5, 4, 3, 2, 9, 8, 7, 6, 5, 4, 3, 2];
    assert ZipSum([0, 0, 0, 0, 0, 0, 0, 0, 0, 0, 0, 1, 9], [6, 5, 4, 3, 2, 9, 8, 7, 6, 5, 4, 3, 2]) == 21;
  }

  lemma Donor2008Valid()
    ensures CnpjNumber.Cnpj(Donor2008Digits).Valid()
  {
    Donor2008Sums();
    CnpjNumber.ValidBySums(CnpjNumber.Cnpj(Donor2008Digits), 2, 21);
    assert CheckDigit(2) == 9 && CheckDigit(21) == 1;
  }

  /** doador_2008('00000000000191') queries the valid CNPJ 00000000000191. */
  lemma Lookup2008Doctest()
    ensures StartLookup(Election2008, Text(Donor2008Text)) == Success(Query(Election2008, Donor2008Text))
  {
    Donor2008Parsed();
    Donor2008Valid();
    Donor2008Plain();
  }
}
