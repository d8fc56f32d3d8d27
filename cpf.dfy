/** The individual taxpayer identifier (CPF) of cpf.py: 11 digits, the last two
    of which are check digits over the first 9 and the first 10. */
module CpfNumber {
  import opened Builtins
  import opened Mod11

  /** The characters __init__ strips, in the order of its replace calls (cpf.py:55-56). */
  const StripChars: seq<char> := ['.', '-']

  /** Where __str__ inserts which separator, in order (cpf.py:123). */
  const Separators: seq<(nat, string)> := [(3, "."), (7, "."), (11, "-")]

  /** The weights valido() gives the known digits when it has n of them: the
      digit at position i weighs n + 1 - i (cpf.py:146). */
  function DescendingWeights(n: nat): (ws: seq<int>)
    ensures |ws| == n
  {
    seq(n, i => n + 1 - i)
  }

  /** The weighted sum valido() reduces modulo 11 when it knows the digits xs. */
  function WeightedSum(xs: seq<int>): int {
    ZipSum(xs, DescendingWeights(|xs|))
  }

  /** A string after the two replace calls of __init__ (cpf.py:55-56). */
  function Stripped(s: string): string {
    DeleteAll(s, StripChars)
  }

  function StrippedInput(raw: Raw): Raw {
    match raw
    case Text(s) => Text(Stripped(s))
    case Digits(_) => raw
  }

  /** The text __str__ produces for a digit list: separators inserted into the
      list of written-out digits, then joined. */
  function Formatted(ds: seq<int>): string {
    Join(InsertAll(MapStr(ds), Separators))
  }

  /** The XXX.XXX.XXX-XX layout of 11 digits. */
  function Punctuated(ds: seq<int>): string
    requires |ds| == 11
  {
    JoinStr(ds[..3]) + "." + JoinStr(ds[3..6]) + "." + JoinStr(ds[6..9]) + "-" + JoinStr(ds[9..])
  }

  /** The ascending weights of the usual "mod 11, then mod 10" formulation: 1 to 9
      for the first check digit and 0 to 9 for the second. */
  function AscendingWeights(n: nat): (ws: seq<int>)
    ensures |ws| == n
  {
    seq(n, i => 10 - n + i)
  }

  /** An independent statement of the Receita Federal rule for 11 digits. */
  predicate ReferenceValid(ds: seq<int>) {
    |ds| == 11
    && ds[9] == ZipSum(ds[..9], AscendingWeights(9)) % 11 % 10
    && ds[10] == ZipSum(ds[..10], AscendingWeights(10)) % 11 % 10
  }

  /** A Cpf object; `digits` is the list self.cpf, set once by __init__. */
  datatype Cpf = Cpf(digits: seq<int>) {

    /** What valido() decides (cpf.py:130-156): exactly 11 digits, and the two
        trailing ones are the check digits of the first 9 and the first 10. */
    predicate Valid() {
      |digits| == 11
      && digits[9] == CheckDigit(WeightedSum(digits[..9]))
      && digits[10] == CheckDigit(WeightedSum(digits[..10]))
    }

    /** valido(): extend the first 9 digits by their check digits and compare
        the result with the stored list. */
    method Valido() returns (ok: bool)
      ensures ok == Valid()
    {
      var c := Take(digits, 9);
      while |c| < 11
        invariant |c| <= 11
        invariant |digits| == 11 ==> 9 <= |c| && c[..9] == digits[..9]
        invariant |digits| == 11 && |c| > 9 ==> c[9] == CheckDigit(WeightedSum(c[..9]))
        invariant |digits| == 11 && |c| > 10 ==> c[10] == CheckDigit(WeightedSum(c[..10]))
        decreases 11 - |c|
      {
        var r := WeightedSum(c) % 11;
        var f;
        if r > 1 {
          f := 11 - r;
        } else {
          f := 0;
        }
        assert c[..|c|] == c;
        c := c + [f];
      }
      ok := c == digits;
      if |digits| == 11 {
        assert c[..9] == digits[..9];
        if Valid() {
          assert c[..10] == digits[..10] by {
            assert c[..10] == c[..9] + [c[9]];
            assert digits[..10] == digits[..9] + [digits[9]];
          }
          assert c == c[..10] + [c[10]];
          assert digits == digits[..10] + [digits[10]];
        }
      }
    }

    /** __nonzero__ (cpf.py:158-178): truth value of the object is valido(). */
    method NonZero() returns (b: bool)
      ensures b == Valid()
    {
      b := Valido();
    }

    /** __getitem__ (cpf.py:66-80): the digit at a Python index, as a string. */
    function GetItem(index: int): (r: Result<string>)
      ensures r.Success? <==> -|digits| <= index < |digits|
      ensures r.Failure? ==> r.error == IndexOutOfRange
      ensures r.Success? && AllDecimal(digits) ==>
        var k := if index < 0 then index + |digits| else index;
        |r.value| == 1 && r.value[0] == DigitChar(digits[k])
    {
      if 0 <= index < |digits| then Success(IntToString(digits[index]))
      else if -|digits| <= index < 0 then Success(IntToString(digits[|digits| + index]))
      else Failure(IndexOutOfRange)
    }

    /** plain() (cpf.py:181-182): the digits written out without separators. */
    function Plain(): (r: string)
      ensures AllDecimal(digits) ==> IntList(r) == Success(digits)
    {
      IntListOfJoinStr(digits);
      JoinStr(digits)
    }

    /** __repr__ (cpf.py:82-94): the expression Cpf('<digits>'). */
    function Repr(): (r: string)
      ensures |r| == |Plain()| + 7
      ensures r[..5] == "Cpf('" && r[5..|r| - 2] == Plain() && r[|r| - 2..] == "')"
    {
      "Cpf('" + Plain() + "')"
    }

    /** __eq__ (cpf.py:96-112) between two Cpf objects: equal digit lists. */
    function Eq(other: Cpf): (b: bool)
      ensures b <==> this == other
    {
      digits == other.digits
    }

    /** __str__ (cpf.py:114-128): insert the separators into the list of
        written-out digits, one after the other, and join. */
    method Str() returns (r: string)
      ensures r == Formatted(digits)
      ensures |digits| == 11 ==> r == Punctuated(digits)
    {
      var s := MapStr(digits);
      for k := 0 to |Separators|
        invariant s == InsertAll(MapStr(digits), Separators[..k])
      {
        var (i, v) := Separators[k];
        assert Separators[..k + 1][..k] == Separators[..k];
        s := Insert(s, i, v);
      }
      assert Separators[..|Separators|] == Separators;
      r := Join(s);
      if |digits| == 11 {
        FormattedLayout(digits);
      }
    }
  }

  /** Cpf(raw): __init__ (cpf.py:40-63). A string must be all digits once '.'
      and '-' are removed; an input shorter than 11 is replaced by 11 - len zeros. */
  function Init(raw: Raw): (r: Result<Cpf>)
    ensures r.Failure? <==> raw.Text? && !IsDigit(Stripped(raw.s))
    ensures r.Failure? ==> r.error == CpfFormat
    ensures r.Success? && raw.Text? ==> AllDecimal(r.value.digits)
    // which digits: zeros for a short accepted input, otherwise the list or tuple
    // as given or the stripped characters' values in order
    ensures r.Success? && Len(StrippedInput(raw)) < 11 ==> r.value.digits == seq(11 - Len(StrippedInput(raw)), _ => 0)
    ensures r.Success? && raw.Digits? && |raw.ds| >= 11 ==> r.value.digits == raw.ds
    ensures r.Success? && raw.Text? && |Stripped(raw.s)| >= 11 ==> IntList(Stripped(raw.s)) == Success(r.value.digits)
  {
    var x := StrippedInput(raw);
    if x.Text? && !IsDigit(x.s) then Failure(CpfFormat)
    else
      var y := if Len(x) < 11 then ZerosValue(11 - Len(x)); Text(Zeros(11 - Len(x))) else x;
      match MapInt(y)
      case Success(ds) => Success(Cpf(ds))
      case Failure(e) => Failure(e)
  }

  // ----- lemmas -----

  /** The three inserts of __str__, one after the other. */
  lemma InsertAllSeparators(m: seq<string>)
    ensures InsertAll(m, Separators) == Insert(Insert(Insert(m, 3, "."), 7, "."), 11, "-")
  {
    assert Separators[..1][..0] == [];
    assert InsertAll(m, Separators[..1]) == Insert(m, 3, ".");
    assert Separators[..2][..1] == Separators[..1];
    assert InsertAll(m, Separators[..2]) == Insert(InsertAll(m, Separators[..1]), 7, ".");
    assert Separators[..2] == Separators[..|Separators| - 1];
  }

  /** On 11 entries the inserts land between the groups of 3, 3, 3 and 2. */
  lemma InsertedGroups(m: seq<string>)
    requires |m| == 11
    ensures InsertAll(m, Separators) == m[..3] + ["."] + m[3..6] + ["."] + m[6..9] + ["-"] + m[9..]
  {
    InsertAllSeparators(m);
    ThreeInserts(m);
  }

  lemma ThreeInserts(m: seq<string>)
    requires |m| == 11
    ensures Insert(Insert(Insert(m, 3, "."), 7, "."), 11, "-")
      == m[..3] + ["."] + m[3..6] + ["."] + m[6..9] + ["-"] + m[9..]
  {
    var a := m[..3] + ["."] + m[3..6];
    calc {
      Insert(Insert(Insert(m, 3, "."), 7, "."), 11, "-");
      Insert(Insert(m[..3] + ["."] + m[3..], 7, "."), 11, "-");
      { InsertAfterInserted(m[..3], ".", m[3..], 3, ".");
        assert m[3..][..3] == m[3..6] && m[3..][3..] == m[6..]; }
      Insert(a + ["."] + m[6..], 11, "-");
      { InsertAfterInserted(a, ".", m[6..], 3, "-");
        assert m[6..][..3] == m[6..9] && m[6..][3..] == m[9..]; }
      a + ["."] + m[6..9] + ["-"] + m[9..];
    }
  }

  /** The 11-digit __str__ layout: separators at list positions 3, 7 and 11. */
  lemma FormattedLayout(ds: seq<int>)
    requires |ds| == 11
    ensures Formatted(ds) == Punctuated(ds)
  {
    var m := MapStr(ds);
    InsertedGroups(m);
    MapStrSlice(ds, 0, 3);
    MapStrSlice(ds, 3, 6);
    MapStrSlice(ds, 6, 9);
    MapStrSlice(ds, 9, 11);
    assert ds[..3] == ds[0..3] && ds[9..] == ds[9..11];
    assert m[..3] == m[0..3] && m[9..] == m[9..11];
    JoinPieces(m[..3], m[3..6], m[6..9], m[9..], ".", ".", "-");
  }

  lemma JoinPieces(p1: seq<string>, p2: seq<string>, p3: seq<string>, p4: seq<string>,
                   s1: string, s2: string, s3: string)
    ensures Join(p1 + [s1] + p2 + [s2] + p3 + [s3] + p4)
      == Join(p1) + s1 + Join(p2) + s2 + Join(p3) + s3 + Join(p4)
  {
    var q1 := p1 + [s1];
    var q2 := q1 + p2;
    var q3 := q2 + [s2];
    var q4 := q3 + p3;
    var q5 := q4 + [s3];
    JoinAppend(p1, [s1]);
    JoinAppend(q1, p2);
    JoinAppend(q2, [s2]);
    JoinAppend(q3, p3);
    JoinAppend(q4, [s3]);
    JoinAppend(q5, p4);
    assert Join([s1]) == s1 && Join([s2]) == s2 && Join([s3]) == s3;
  }

  /** str(x) is plain() with the separators put in: XXX.XXX.XXX-XX. */
  lemma FormattedFromPlain(c: Cpf)
    requires |c.digits| == 11 && AllDecimal(c.digits)
    ensures var p := c.Plain();
      |p| == 11 && Formatted(c.digits) == p[..3] + "." + p[3..6] + "." + p[6..9] + "-" + p[9..]
  {
    var ds := c.digits;
    FormattedLayout(ds);
    JoinStrSlice(ds, 0, 3);
    JoinStrSlice(ds, 3, 6);
    JoinStrSlice(ds, 6, 9);
    JoinStrSlice(ds, 9, 11);
    assert ds[..3] == ds[0..3] && ds[9..] == ds[9..11];
  }

  /** An input shorter than 11 that does not raise is replaced by 11 - len zeros,
      not padded; the result is valid only when the input was empty, which only
      an empty list or tuple can be. */
  lemma ShortInputReplaced(raw: Raw)
    requires Len(StrippedInput(raw)) < 11
    requires raw.Digits? || IsDigit(Stripped(raw.s))
    ensures Init(raw) == Success(Cpf(seq(11 - Len(StrippedInput(raw)), _ => 0)))
    ensures Init(raw).value.Valid() <==> Len(StrippedInput(raw)) == 0
    ensures Len(StrippedInput(raw)) == 0 ==> raw.Digits?
  {
    if Len(StrippedInput(raw)) == 0 {
      ZerosValid();
    }
  }

  /** Eleven zeros pass the check: both weighted sums are 0, so both check digits are 0. */
  lemma ZerosValid()
    ensures Cpf(seq(11, _ => 0)).Valid()
  {
    var z := seq(11, _ => 0);
    ZipSumFromZeros(z[..9], DescendingWeights(9), 0);
    ZipSumFromZeros(z[..10], DescendingWeights(10), 0);
  }

  /** A string raises exactly when, after removing '.' and '-', it is empty or
      holds a character other than a digit; a '/' therefore always raises. */
  lemma InitFailsOnNonDigits(s: string)
    ensures Init(Text(s)).Failure? <==>
      Stripped(s) == [] || exists i :: 0 <= i < |Stripped(s)| && !IsDecimalChar(Stripped(s)[i])
    ensures '/' in s ==> Init(Text(s)) == Failure(CpfFormat)
  {
    if '/' in s {
      var t := Stripped(s);
      assert '/' in t by {
        DeleteAllKeeps(s, StripChars, '/');
      }
      var i :| 0 <= i < |t| && t[i] == '/';
      assert !IsDecimalChar(t[i]);
    }
  }

  /** Cpf(x.plain()) == x for at least 11 decimal digits. */
  lemma {:induction false} PlainRoundTrip(c: Cpf)
    requires |c.digits| >= 11 && AllDecimal(c.digits)
    ensures Init(Text(c.Plain())) == Success(c)
  {
    IntListOfJoinStr(c.digits);
    JoinStrDecimal(c.digits);
    DeleteAllAbsent(c.Plain(), StripChars);
  }

  /** eval(repr(x)) == x: the quoted argument of the repr constructs an equal object. */
  lemma ReprRoundTrip(c: Cpf)
    requires |c.digits| >= 11 && AllDecimal(c.digits)
    ensures c.Repr()[..5] == "Cpf('" && c.Repr()[|c.Repr()| - 2..] == "')"
    ensures Init(Text(c.Repr()[5..|c.Repr()| - 2])) == Success(c)
  {
    assert c.Repr()[5..|c.Repr()| - 2] == c.Plain();
    PlainRoundTrip(c);
  }

  /** The round trips stop at 11 digits: a shorter object's plain() is itself a short
      input, which raises when empty and is otherwise replaced by 11 - len zeros. */
  lemma ShortPlainNoRoundTrip(c: Cpf)
    requires |c.digits| < 11 && AllDecimal(c.digits)
    ensures c.digits == [] ==> Init(Text(c.Plain())) == Failure(CpfFormat)
    ensures c.digits != [] ==> Init(Text(c.Plain())) == Success(Cpf(seq(11 - |c.digits|, _ => 0)))
    ensures Init(Text(c.Plain())) != Success(c)
  {
    IntListOfJoinStr(c.digits);
    JoinStrDecimal(c.digits);
    DeleteAllAbsent(c.Plain(), StripChars);
    if c.digits != [] {
      ShortInputReplaced(Text(c.Plain()));
    }
  }

  /** Cpf(str(x)) == x: the punctuated form parses back to the same digits. */
  lemma {:induction false} FormattedRoundTrip(c: Cpf)
    requires |c.digits| >= 11 && AllDecimal(c.digits)
    ensures Init(Text(Formatted(c.digits))) == Success(c)
  {
    forall k | 0 <= k < |Separators| ensures IsSeparator(Separators[k].1, StripChars) {
    }
    StripFormatted(c.digits, Separators, StripChars);
    IntListOfJoinStr(c.digits);
    JoinStrDecimal(c.digits);
  }

  /** The descending weights agree with the ascending-weight, mod-11-then-mod-10
      statement of the rule. */
  lemma ValidMatchesReference(c: Cpf)
    ensures c.Valid() <==> ReferenceValid(c.digits)
  {
    if |c.digits| == 11 {
      ComplementaryRule(c.digits[..9], DescendingWeights(9), AscendingWeights(9));
      ComplementaryRule(c.digits[..10], DescendingWeights(10), AscendingWeights(10));
    }
  }

  /** The check digits are determined by the first 9: two valid numbers that
      share them are equal. */
  lemma {:induction false} CheckDigitsDetermined(a: Cpf, b: Cpf)
    requires a.Valid() && b.Valid() && a.digits[..9] == b.digits[..9]
    ensures a == b
  {
    assert a.digits[..10] == a.digits[..9] + [a.digits[9]];
    assert b.digits[..10] == b.digits[..9] + [b.digits[9]];
    assert a.digits == a.digits[..10] + [a.digits[10]];
    assert b.digits == b.digits[..10] + [b.digits[10]];
  }

  // ----- the numbers of the doctests (cpf.py:21-35, 43-45, 69-76, 87-89, 117-119, 133-138) -----

  /** The digits of a and b in the class doctest, those of c, and those of the
      number the method doctests use. */
  const ExampleDigits: seq<int> := [5, 6, 0, 6, 8, 3, 3, 2, 5, 5, 1]
  const OtherDigits: seq<int> := [1, 2, 3, 4, 5, 6, 7, 8, 9, 0, 0]
  const MethodDigits: seq<int> := [9, 5, 5, 2, 4, 3, 6, 1, 5, 0, 3]

  const ExampleText: string := "56068332551"
  const ExamplePunctuated: string := "560.683.325-51"
  const OtherText: string := "12345678900"
  const OtherPunctuated: string := "123.456.789-00"
  const MethodText: string := "95524361503"
  const MethodPunctuated: string := "955.243.615-03"

  lemma DoctestDigitsDecimal()
    ensures AllDecimal(ExampleDigits) && AllDecimal(OtherDigits) && AllDecimal(MethodDigits)
  {
  }

  lemma ExamplePlain()
    ensures Cpf(ExampleDigits).Plain() == ExampleText
  {
    DoctestDigitsDecimal();
    JoinStrSpells(ExampleDigits, ExampleText);
  }

  lemma OtherPlain()
    ensures Cpf(OtherDigits).Plain() == OtherText
  {
    DoctestDigitsDecimal();
    JoinStrSpells(OtherDigits, OtherText);
  }

  lemma MethodPlain()
    ensures Cpf(MethodDigits).Plain() == MethodText
  {
    DoctestDigitsDecimal();
    JoinStrSpells(MethodDigits, MethodText);
  }

  lemma ExampleLayout()
    ensures var p := ExampleText;
      p[..3] + "." + p[3..6] + "." + p[6..9] + "-" + p[9..] == ExamplePunctuated
  {
    var p := ExampleText;
    assert p[..3] == "560" && p[3..6] == "683" && p[6..9] == "325" && p[9..] == "51";
  }

  lemma OtherLayout()
    ensures var p := OtherText;
      p[..3] + "." + p[3..6] + "." + p[6..9] + "-" + p[9..] == OtherPunctuated
  {
    var p := OtherText;
    assert p[..3] == "123" && p[3..6] == "456" && p[6..9] == "789" && p[9..] == "00";
  }

  lemma MethodLayout()
    ensures var p := MethodText;
      p[..3] + "." + p[3..6] + "." + p[6..9] + "-" + p[9..] == MethodPunctuated
  {
    var p := MethodText;
    assert p[..3] == "955" && p[3..6] == "243" && p[6..9] == "615" && p[9..] == "03";
  }

  /** a = Cpf('56068332551') holds the example digits. */
  lemma DoctestFromPlain()
    ensures Init(Text(ExampleText)) == Success(Cpf(ExampleDigits))
  {
    DoctestDigitsDecimal();
    ExamplePlain();
    PlainRoundTrip(Cpf(ExampleDigits));
  }

  /** str(a) == "560.683.325-51" */
  lemma DoctestExampleFormat()
    ensures Formatted(ExampleDigits) == ExamplePunctuated
  {
    DoctestDigitsDecimal();
    ExamplePlain();
    FormattedFromPlain(Cpf(ExampleDigits));
    ExampleLayout();
  }

  /** str(c) == "123.456.789-00": __str__ formats an invalid number too. */
  lemma DoctestOtherFormat()
    ensures Formatted(OtherDigits) == OtherPunctuated
  {
    DoctestDigitsDecimal();
    OtherPlain();
    FormattedFromPlain(Cpf(OtherDigits));
    OtherLayout();
  }

  /** str(Cpf('95524361503')) == '955.243.615-03' */
  lemma DoctestMethodFormat()
    ensures Formatted(MethodDigits) == MethodPunctuated
  {
    DoctestDigitsDecimal();
    MethodPlain();
    FormattedFromPlain(Cpf(MethodDigits));
    MethodLayout();
  }

  /** b = Cpf('560.683.325-51') equals a. */
  lemma DoctestFromFormatted()
    ensures Init(Text(ExamplePunctuated)) == Success(Cpf(ExampleDigits))
  {
    DoctestDigitsDecimal();
    DoctestExampleFormat();
    FormattedRoundTrip(Cpf(ExampleDigits));
  }

  /** c = Cpf((1, 2, 3, 4, 5, 6, 7, 8, 9, 0, 0)) keeps the tuple, and differs from a. */
  lemma DoctestFromTuple()
    ensures Init(Digits(OtherDigits)) == Success(Cpf(OtherDigits))
    ensures Init(Digits(OtherDigits)) != Init(Text(ExampleText))
  {
    DoctestFromPlain();
    assert ExampleDigits[0] != OtherDigits[0];
  }

  /** Cpf([9, 5, 5, 2, 4, 3, 6, 1, 5, 0, 3]) keeps the list (cpf.py:45). */
  lemma DoctestMethodList()
    ensures Init(Digits(MethodDigits)) == Success(Cpf(MethodDigits))
  {
  }

  /** Cpf('95524361503') (cpf.py:43). */
  lemma DoctestMethodNumber()
    ensures Init(Text(MethodText)) == Success(Cpf(MethodDigits))
  {
    DoctestDigitsDecimal();
    MethodPlain();
    PlainRoundTrip(Cpf(MethodDigits));
  }

  /** Cpf('955.243.615-03') is the same number (cpf.py:44, 99-103). */
  lemma DoctestMethodFromFormatted()
    ensures Init(Text(MethodPunctuated)) == Success(Cpf(MethodDigits))
  {
    DoctestDigitsDecimal();
    DoctestMethodFormat();
    FormattedRoundTrip(Cpf(MethodDigits));
  }

  /** Cpf('123.456.789-00') holds the digits of c, another number (cpf.py:101-107). */
  lemma DoctestOtherFromFormatted()
    ensures Init(Text(OtherPunctuated)) == Success(Cpf(OtherDigits))
    ensures OtherDigits != MethodDigits
  {
    DoctestDigitsDecimal();
    DoctestOtherFormat();
    FormattedRoundTrip(Cpf(OtherDigits));
    assert MethodDigits[0] != OtherDigits[0];
  }

  /** a[9] == '0' and a[10] == '3' for a = Cpf('95524361503') (cpf.py:66-80). */
  lemma DoctestGetItem()
    ensures Cpf(MethodDigits).GetItem(9) == Success("0")
    ensures Cpf(MethodDigits).GetItem(10) == Success("3")
  {
    assert MethodDigits[9] == 0 && MethodDigits[10] == 3;
    assert IntToString(0) == "0" && IntToString(3) == "3";
  }

  /** print repr(a) shows Cpf('95524361503') (cpf.py:87-89). */
  lemma ReprSpelled()
    ensures "Cpf('" + MethodText + "')" == "Cpf('95524361503')"
  {
  }

  lemma DoctestRepr()
    ensures Cpf(MethodDigits).Repr() == "Cpf('95524361503')"
  {
    MethodPlain();
    ReprSpelled();
  }

  /** Validity of 11 digits once the two weighted sums are known. */
  lemma ValidBySums(c: Cpf, s9: int, s10: int)
    requires |c.digits| == 11
    requires WeightedSum(c.digits[..9]) == s9
    requires WeightedSum(c.digits[..10]) == s10
    ensures c.Valid() <==> c.digits[9] == CheckDigit(s9) && c.digits[10] == CheckDigit(s10)
  {
  }

  lemma WeightsSpelled()
    ensures DescendingWeights(9) == [10, 9, 8, 7, 6, 5, 4, 3, 2]
    ensures DescendingWeights(10) == [11, 10, 9, 8, 7, 6, 5, 4, 3, 2]
  {
  }

  lemma ExampleSums()
    ensures WeightedSum(ExampleDigits[..9]) == 237
    ensures WeightedSum(ExampleDigits[..10]) == 285
  {
    WeightsSpelled();
    assert ExampleDigits[..9] == [5, 6, 0, 6, 8, 3, 3, 2, 5];
    assert ZipSum([5, 6, 0, 6, 8, 3, 3, 2, 5], [10, 9, 8, 7, 6, 5, 4, 3, 2]) == 237;
    assert ExampleDigits[..10] == [5, 6, 0, 6, 8, 3, 3, 2, 5, 5];
    assert ZipSum([5, 6, 0, 6, 8, 3, 3, 2, 5, 5], [11, 10, 9, 8, 7, 6, 5, 4, 3, 2]) == 285;
  }

  lemma OtherSums()
    ensures WeightedSum(OtherDigits[..9]) == 210
    ensures WeightedSum(OtherDigits[..10]) == 255
  {
    WeightsSpelled();
    assert OtherDigits[..9] == [1, 2, 3, 4, 5, 6, 7, 8, 9];
    assert ZipSum([1, 2, 3, 4, 5, 6, 7, 8, 9], [10, 9, 8, 7, 6, 5, 4, 3, 2]) == 210;
    assert OtherDigits[..10] == [1, 2, 3, 4, 5, 6, 7, 8, 9, 0];
    assert ZipSum([1, 2, 3, 4, 5, 6, 7, 8, 9, 0], [11, 10, 9, 8, 7, 6, 5, 4, 3, 2]) == 255;
  }

  lemma MethodSums()
    ensures WeightedSum(MethodDigits[..9]) == 265
    ensures WeightedSum(MethodDigits[..10]) == 305
  {
    WeightsSpelled();
    assert MethodDigits[..9] == [9, 5, 5, 2, 4, 3, 6, 1, 5];
    assert ZipSum([9, 5, 5, 2, 4, 3, 6, 1, 5], [10, 9, 8, 7, 6, 5, 4, 3, 2]) == 265;
    assert MethodDigits[..10] == [9, 5, 5, 2, 4, 3, 6, 1, 5, 0];
    assert ZipSum([9, 5, 5, 2, 4, 3, 6, 1, 5, 0], [11, 10, 9, 8, 7, 6, 5, 4, 3, 2]) == 305;
  }

  /** a.valido(), not c.valido() (cpf.py:24-26), Cpf('95524361503').valido() and
      not Cpf('12345678900').valido() (cpf.py:133-138). */
  lemma DoctestValidity()
    ensures Cpf(ExampleDigits).Valid()
    ensures !Cpf(OtherDigits).Valid()
    ensures Cpf(MethodDigits).Valid()
  {
    ExampleSums();
    OtherSums();
    MethodSums();
    ValidBySums(Cpf(ExampleDigits), 237, 285);
    ValidBySums(Cpf(OtherDigits), 210, 255);
    ValidBySums(Cpf(MethodDigits), 265, 305);
    assert CheckDigit(237) == 5 && CheckDigit(285) == 1;
    assert CheckDigit(210) == 0 && CheckDigit(255) == 9;
    assert CheckDigit(265) == 0 && CheckDigit(305) == 3;
    assert ExampleDigits[9] == 5 && ExampleDigits[10] == 1;
    assert OtherDigits[10] == 0;
    assert MethodDigits[9] == 0 && MethodDigits[10] == 3;
  }

  /** Cpf('12345678900') holds the digits of c. */
  lemma DoctestOtherFromPlain()
    ensures Init(Text(OtherText)) == Success(Cpf(OtherDigits))
  {
    DoctestDigitsDecimal();
    OtherPlain();
    PlainRoundTrip(Cpf(OtherDigits));
  }
}
