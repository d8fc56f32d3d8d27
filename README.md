# Brazilian taxpayer identifiers (CPF and CNPJ) and the donor classifier

This Dafny project models the identifier layer of a small Python library that looks up electoral
donations in the public reports of Brazil's electoral court (TSE):

- `Cnpj` (cnpj.py) wraps the 14-digit corporate identifier.
- `Cpf` (cpf.py) wraps the 11-digit individual identifier.
- Each class normalises a string or a list of digits into a list of ints set once by its constructor.
- `valido` checks the two trailing check digits with the Receita Federal modulo-11 rule.
- `__str__` renders the punctuated form, `plain` the bare digits and `__repr__` an expression that
  rebuilds the object.
- `__getitem__` reads one digit as a string, `__nonzero__` is `valido`, and `__eq__` compares the
  digit lists.
- `pessoa_or_valueerror` (tse/prestacao_de_contas.py) reads an identifier as a CNPJ first and, when
  that is not valid, as a CPF. If neither is valid it raises `ValueError`. Each donation lookup
  calls it before opening a session and keys its query by `plain()` of the result.

Modules:

- `Builtins` (builtins.dfy): the Python built-ins the code relies on, written out. It has `str.replace`
  with an empty replacement, `str.isdigit`, `map(int, ...)`, `map(str, ...)`, `''.join`, `list.insert`
  and `sum(x*y for x, y in zip(...))`. A `Result` stands for a raised exception.
- `Mod11` (mod11.dfy): the shared check-digit rule, and its equivalence with the "ascending weights,
  then mod 11 and mod 10" formulation.
- `CnpjNumber` (cnpj.dfy) and `CpfNumber` (cpf.dfy): the two classes. Each is an immutable datatype
  whose field is the digit list. `valido` and `__str__` keep their loops as methods, proved against
  the predicate `Valid` and the function `Formatted`.
- `PrestacaoDeContas` (prestacao_de_contas.dfy): the classifier, and the step of every lookup that
  precedes network access.

The constructor argument is `Raw`: `Text(s)` for a string, `Digits(ds)` for a list or tuple of ints.
Python exceptions are `Failure` values:

- `IntLiteral` is the `ValueError` of `int()` at cnpj.py:64.
- `CpfFormat` is raised at cpf.py:57-58.
- `InvalidIdentifier` is raised at tse/prestacao_de_contas.py:38.
- `IndexOutOfRange` is the `IndexError` of `__getitem__`.

Behaviour kept exactly as the code has it, including what looks unintended:

- A stripped input shorter than the target length is REPLACED by `'0' * (N - len)`, not left-padded
  (cnpj.py:61-62, cpf.py:60-61). So `Cnpj('')` is fourteen zeros and is valid.
- The documented round trip `eval(repr(x)) == x` (cnpj.py:86, cpf.py:85), which reads back `plain()`,
  holds for 14 (CPF: 11) or more decimal digits. Among shorter objects only the CNPJ of seven zeros
  survives it, and no CPF does. An object built from short input holds fewer digits, whose text is
  again short input and is replaced by zeros: `Cnpj('123')` holds eleven zeros, and its repr
  `Cnpj('00000000000')` gives three (`CnpjNumber.ShortPlainRoundTrip`, `CpfNumber.ShortPlainNoRoundTrip`).
- Identifiers made of one repeated digit are not rejected. Fourteen zeros pass `Cnpj.valido`.
- The digit test at cnpj.py:58 names `cnpj.isdigit` without calling it, so it never raises. A CNPJ
  string fails only in `int()`, and only when at least 14 characters are left after stripping.
- `Cpf` strips only '.' and '-'. Any other non-digit, '/' included, raises, and so does the empty
  string.
- Only the empty list is valid both as a CNPJ and as a CPF (`TextNeverAmbiguous`,
  `NonEmptyListNeverAmbiguous`), and it is classified as the CNPJ of fourteen zeros. Trying the CNPJ
  first also matters for text: `Cpf` raises on any '/', so a valid slash-punctuated CNPJ such as
  '11.222.333/0001-81' is accepted only because `Cnpj` is tried before `Cpf` (`SlashedCnpjNeedsCnpjFirst`,
  `SlashedCpfRaises`).

## Model

| member | source | states |
|---|---|---|
| Mod11.CheckDigit | cnpj.py:147-152 | the check digit is in 0..9, is 0 exactly when the sum leaves remainder 0 or 1, and otherwise makes the sum plus the digit a multiple of 11 |
| Mod11.ComplementaryRule | cpf.py:146-151 | the subtract-from-11 digit of a weighted sum equals the mod-11-mod-10 digit under the complementary weights (each pair of weights adds to 11) |
| CnpjNumber.Init | cnpj.py:39-64 | Cnpj(raw) fails exactly for a text with at least 14 characters after stripping that is not all digits (the test at line 58 never raises), and the failure is int()'s ValueError; a stripped input shorter than 14 becomes 14 - len zeros, a list of 14 or more entries is kept as given, and a text with at least that many stripped characters becomes their digit values in order |
| CnpjNumber.StrippedIsReplaceChain | cnpj.py:53-56 | skipping the replace calls for an all-digit string gives the same result as always removing '.', '-' and '/' |
| CnpjNumber.ShortInputReplaced | cnpj.py:61-64 | a stripped input shorter than 14 becomes the list of 14 - len zeros, which is valid exactly when the input was empty |
| CnpjNumber.ZerosValid | cnpj.py:141-158 | fourteen zeros pass the check: both weighted sums are 0, so both check digits are 0 |
| CnpjNumber.Cnpj.Valido | cnpj.py:130-158 | the loop that appends two check digits to the first 12 and compares with the stored list returns exactly `Valid()`: length 14 and both check digits correct |
| CnpjNumber.ValidMatchesReference | cnpj.py:141-158 | `Valid()` agrees, for every digit list, with the ascending-weights statement of the rule |
| CnpjNumber.CheckDigitsDetermined | cnpj.py:141-158 | two valid CNPJs that agree on their first 12 digits are equal |
| CnpjNumber.Cnpj.NonZero | cnpj.py:160-180 | bool(x) is x.valido() |
| CnpjNumber.Cnpj.GetItem | cnpj.py:67-81 | x[i] is defined exactly for Python indices -len <= i < len of the stored list (negative counts from the end), is the digit as a one-character string, and otherwise raises IndexError |
| CnpjNumber.Cnpj.Plain | cnpj.py:182-183 | plain() of decimal digits reads back with map(int, ...) as the same digit list |
| CnpjNumber.Cnpj.Eq | cnpj.py:97-113 | two Cnpj objects are == exactly when they are the same value (same digit list) |
| CnpjNumber.Cnpj.Str | cnpj.py:115-128 | the insert loop produces `Formatted(digits)`, which for 14 digits is the XX.XXX.XXX/XXXX-XX layout, valid or not |
| CnpjNumber.FormattedLayout | cnpj.py:123-127 | inserting '.', '.', '/', '-' at list positions 2, 6, 10, 15 gives groups of 2, 3, 3, 4 and 2 digits |
| CnpjNumber.FormattedFromPlain | cnpj.py:123-127 | str(x) of 14 digits is plain() cut into those groups with the separators between them |
| CnpjNumber.PlainRoundTrip | cnpj.py:182-183 | Cnpj(x.plain()) == x for at least 14 decimal digits |
| CnpjNumber.Cnpj.Repr | cnpj.py:83-95 | repr(x) is the text Cnpj(' followed by plain() and then ') |
| CnpjNumber.ReprRoundTrip | cnpj.py:83-95 | for 14 or more decimal digits, repr(x) is Cnpj('...') and the quoted text rebuilds x (eval(repr(x)) == x) |
| CnpjNumber.FormattedRoundTrip | cnpj.py:39-64 | Cnpj(str(x)) == x for 14 or more decimal digits: stripping the punctuated form gives the digits back |
| CnpjNumber.ShortPlainRoundTrip | cnpj.py:61-64 | for fewer than 14 decimal digits, Cnpj(x.plain()) (the text inside repr(x)) is 14 - len zeros, so it equals x only for seven zeros |
| CnpjNumber.DoctestFromPlain | cnpj.py:21 | Cnpj('11222333000181') holds 1,1,2,2,2,3,3,3,0,0,0,1,8,1 |
| CnpjNumber.DoctestFromFormatted | cnpj.py:22-27 | Cnpj('11.222.333/0001-81') equals Cnpj('11222333000181') |
| CnpjNumber.DoctestFromList | cnpj.py:23-29 | the list ending in 8,2 is kept as given and differs from the string's object |
| CnpjNumber.DoctestOtherFromPlain | cnpj.py:136 | Cnpj('11222333000182') holds the list ending in 8,2 |
| CnpjNumber.DoctestExampleFormat | cnpj.py:33-34 | str of the valid doctest number is 11.222.333/0001-81 |
| CnpjNumber.DoctestOtherFormat | cnpj.py:35 | str of the invalid number is 11.222.333/0001-82 |
| CnpjNumber.DoctestGetItem | cnpj.py:70-78 | a[9] and a[10] are the string '0', and index 14 is out of range |
| CnpjNumber.DoctestRepr | cnpj.py:88-90 | repr(a) is Cnpj('11222333000181') |
| CnpjNumber.DoctestSums | cnpj.py:141-147 | the doctest's weighted sums are 102 and 120 |
| CnpjNumber.DoctestLastDigit | cnpj.py:141-158 | with the doctest's first 13 digits, a number is valid exactly when its last digit is 1 |
| CnpjNumber.DoctestValidity | cnpj.py:24-26 | 11222333000181 is valid and 11222333000182 is not |
| CpfNumber.Init | cpf.py:40-63 | Cpf(raw) fails exactly for a text that is empty or not all digits once '.' and '-' are removed, and the failure is the CPF-format ValueError; an accepted input shorter than 11 becomes 11 - len zeros, a list of 11 or more entries is kept as given, and a text with at least that many stripped characters becomes their digit values in order |
| CpfNumber.ShortInputReplaced | cpf.py:60-63 | an accepted input shorter than 11 becomes 11 - len zeros, valid only when it was empty, which only a list can be |
| CpfNumber.InitFailsOnNonDigits | cpf.py:54-58 | construction from text fails iff the stripped text is empty or holds a non-digit; any '/' makes it fail |
| CpfNumber.ZerosValid | cpf.py:141-156 | eleven zeros pass the check: both weighted sums are 0, so both check digits are 0 |
| CpfNumber.Cpf.Valido | cpf.py:130-156 | the loop that appends check digits weighted len+1-i to the first 9 returns exactly `Valid()`: length 11 and both check digits correct |
| CpfNumber.ValidMatchesReference | cpf.py:141-156 | `Valid()` agrees, for every digit list, with the ascending-weights statement of the rule |
| CpfNumber.CheckDigitsDetermined | cpf.py:141-156 | two valid CPFs that agree on their first 9 digits are equal |
| CpfNumber.Cpf.NonZero | cpf.py:158-178 | bool(x) is x.valido() |
| CpfNumber.Cpf.GetItem | cpf.py:66-80 | x[i] is defined exactly for Python indices -len <= i < len of the stored list, is the digit as a one-character string, and otherwise raises IndexError |
| CpfNumber.Cpf.Plain | cpf.py:181-182 | plain() of decimal digits reads back with map(int, ...) as the same digit list |
| CpfNumber.Cpf.Eq | cpf.py:96-112 | two Cpf objects are == exactly when they are the same value |
| CpfNumber.Cpf.Str | cpf.py:114-128 | the insert loop produces `Formatted(digits)`, which for 11 digits is the XXX.XXX.XXX-XX layout |
| CpfNumber.FormattedLayout | cpf.py:123-127 | inserting '.', '.', '-' at list positions 3, 7, 11 gives groups of 3, 3, 3 and 2 digits |
| CpfNumber.FormattedFromPlain | cpf.py:123-127 | str(x) of 11 digits is plain() cut into those groups with the separators between them |
| CpfNumber.PlainRoundTrip | cpf.py:181-182 | Cpf(x.plain()) == x for at least 11 decimal digits |
| CpfNumber.Cpf.Repr | cpf.py:82-94 | repr(x) is the text Cpf(' followed by plain() and then ') |
| CpfNumber.ReprRoundTrip | cpf.py:82-94 | for 11 or more decimal digits, repr(x) is Cpf('...') and the quoted text rebuilds x |
| CpfNumber.FormattedRoundTrip | cpf.py:40-63 | Cpf(str(x)) == x for 11 or more decimal digits |
| CpfNumber.ShortPlainNoRoundTrip | cpf.py:54-63 | for fewer than 11 decimal digits, Cpf(x.plain()) (the text inside repr(x)) raises when x is empty and is otherwise 11 - len zeros, so it never equals x |
| CpfNumber.DoctestFromPlain | cpf.py:21 | Cpf('56068332551') holds 5,6,0,6,8,3,3,2,5,5,1 |
| CpfNumber.DoctestFromFormatted | cpf.py:22-27 | Cpf('560.683.325-51') equals Cpf('56068332551') |
| CpfNumber.DoctestFromTuple | cpf.py:23-29 | the tuple 1,...,9,0,0 is kept as given and differs from the string's object |
| CpfNumber.DoctestExampleFormat | cpf.py:33-34 | str of the first doctest number is 560.683.325-51 |
| CpfNumber.DoctestOtherFormat | cpf.py:35 | str of the invalid number is 123.456.789-00 |
| CpfNumber.DoctestMethodFormat | cpf.py:117-119 | str(Cpf('95524361503')) is 955.243.615-03 |
| CpfNumber.DoctestMethodList | cpf.py:45 | the list 9,5,5,2,4,3,6,1,5,0,3 is kept as given |
| CpfNumber.DoctestMethodNumber | cpf.py:43 | Cpf('95524361503') holds that list |
| CpfNumber.DoctestMethodFromFormatted | cpf.py:44 | Cpf('955.243.615-03') holds that list |
| CpfNumber.DoctestOtherFromFormatted | cpf.py:99-107 | Cpf('123.456.789-00') holds 1,...,9,0,0, which differs from 95524361503 |
| CpfNumber.DoctestGetItem | cpf.py:69-77 | a[9] is '0' and a[10] is '3' |
| CpfNumber.DoctestRepr | cpf.py:87-89 | repr(a) is Cpf('95524361503') |
| CpfNumber.ExampleSums | cpf.py:141-146 | the weighted sums of 56068332551 are 237 and 285 |
| CpfNumber.DoctestValidity | cpf.py:24-26 | 56068332551 and 95524361503 are valid, 12345678900 is not |
| PrestacaoDeContas.PessoaOrValueError | tse/prestacao_de_contas.py:33-39 | a valid Cnpj(s) is returned whatever Cpf(s) gives; a Cpf is returned exactly when Cnpj(s) parses, is not valid, and Cpf(s) is valid; whatever is returned is valid; Cnpj's ValueError, Cpf's ValueError and 'CNPJ/CPF inválido' arise exactly in their three cases |
| PrestacaoDeContas.TextNeverAmbiguous | tse/prestacao_de_contas.py:33-37 | no text is both a valid CNPJ and a valid CPF |
| PrestacaoDeContas.EmptyListIsCnpj | tse/prestacao_de_contas.py:33-35 | the empty list is a valid CNPJ and a valid CPF, and is classified as the CNPJ of fourteen zeros |
| PrestacaoDeContas.NonEmptyListNeverAmbiguous | tse/prestacao_de_contas.py:33-37 | no non-empty list is both a valid CNPJ and a valid CPF |
| PrestacaoDeContas.EmptyTextIsCnpj | tse/prestacao_de_contas.py:33-35 | '' is classified as the CNPJ of fourteen zeros |
| PrestacaoDeContas.ShortTextIsDecidedByCpf | tse/prestacao_de_contas.py:34-38 | a text with 1 to 13 characters left after CNPJ stripping is classified exactly as Cpf(s) decides |
| PrestacaoDeContas.ValidCpfText | cpf.py:54-63 | a text that is a valid CPF has no '/' and exactly 11 characters after stripping |
| PrestacaoDeContas.ValidCpfTextIsFisica | tse/prestacao_de_contas.py:34-39 | a text that is a valid CPF is classified as that CPF |
| PrestacaoDeContas.ValidCpfIsFisica | tse/prestacao_de_contas.py:34-39 | the plain digits of a valid CPF are classified as that CPF |
| PrestacaoDeContas.ValidCnpjIsJuridica | tse/prestacao_de_contas.py:34-35 | the plain digits of a valid CNPJ are classified as that CNPJ |
| PrestacaoDeContas.SlashedCpfRaises | tse/prestacao_de_contas.py:36 | a short text holding '/' reaches Cpf, which raises its format error |
| PrestacaoDeContas.SlashedCnpjNeedsCnpjFirst | tse/prestacao_de_contas.py:33-36 | a text that is a valid CNPJ and holds a '/' makes Cpf raise, and is classified as that CNPJ only because Cnpj is tried first |
| PrestacaoDeContas.DoctestSlashedCnpj | tse/prestacao_de_contas.py:33-36 | Cpf('11.222.333/0001-81') raises, while the classifier returns the CNPJ 11222333000181 |
| PrestacaoDeContas.StartLookup | tse/prestacao_de_contas.py:58-62 | a lookup starts exactly when the classifier succeeds, carries its error otherwise, and is keyed by plain() of the classified identifier |
| PrestacaoDeContas.InvalidStartsNoLookup | tse/prestacao_de_contas.py:126-127 | an identifier valid as neither kind starts no lookup in any election, and the error is one of the classifier's three |
| PrestacaoDeContas.LookupKeyRoundTrip | tse/prestacao_de_contas.py:171-178 | a lookup from text is keyed by 11 or 14 digits, which classify as the same identifier again |
| PrestacaoDeContas.Lookup2004Doctest | tse/prestacao_de_contas.py:47 | '85.907.012/0001-57' is a valid CNPJ and the 2004 query is keyed 85907012000157 |
| PrestacaoDeContas.Lookup2006Doctest | tse/prestacao_de_contas.py:115 | '181.929.206-15' is a valid CPF and the 2006 query is keyed 18192920615 |
| PrestacaoDeContas.Lookup2008Doctest | tse/prestacao_de_contas.py:164 | '00000000000191' is a valid CNPJ and the 2008 query is keyed by the same digits |

## Left out

- scraper.py and everything after `Scraper()` in `doador_2004`, `doador_2006` and `doador_2008`:
  HTTP, forms and HTML parsing through foreign libraries. `StartLookup` ends where the session
  would begin.
- filter_valid.py and the scripts under exemplos/: command-line programs over stdin and stdout that
  repeat the classification.
- `__eq__` against an object of another class, which returns False: both models compare only values
  of their own type.
- Python 2 string details (`basestring`/`unicode`, and Unicode digits that `isdigit` accepts): the
  model treats characters as ASCII.
- The Python 2 `map` returning a list, and `print repr(a)` in the doctests: the model has the list and
  the string, and prints nothing.
- A list or tuple of 14 (CPF: 11) or more entries is kept as given, even when its entries are not
  0..9; a shorter one is replaced by zeros whatever its entries. `Plain`, `GetItem` and the round
  trips state their results only for decimal digits.
- Slices: `x[1:3]` reaches `__getitem__` with a slice object and returns `str` of a list slice.
  `GetItem` takes only an integer index, so slicing is not modelled.
- CnpjNumber.Cnpj.Plain: the contract covers decimal digits only; for other ints it is only
  `''.join(map(str, ...))`.
- CpfNumber.Cpf.Plain: the same restriction as for the CNPJ.
- `!=` on two objects: neither class defines `__ne__`, and Python 2 does not derive it from
  `__eq__`, so `a != b` compares object identity (the doctests at cnpj.py:105-108 and cpf.py:104-107
  use it). The model has values, not object identities, so only `==` is modelled.
- Constructor arguments that are neither a string nor a list or tuple of ints lie outside `Raw`:
  an int or None raises TypeError at `len()` (cnpj.py:61, cpf.py:60), and a list of digit strings is
  converted by `int()` (cnpj.py:64, cpf.py:63).
- `doctest()` at the end of cnpj.py and cpf.py, which runs the examples: each example is a lemma instead.
