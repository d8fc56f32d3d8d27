/** The corporate taxpayer identifier (CNPJ) of cnpj.py: 14 digits, the last
    two of which are check digits over the first 12 and the first 13. */
module CnpjNumber {
  import opened Builtins
  import opened Mod11

  /** Weights of the first check digit (cnpj.py:142); before the second round a 6
      is put in front of them (cnpj.py:154). */
  const Weights: seq<int> := [5, 4, 3, 2, 9, 8, 7, 6, 5, 4, 3, 2]

  /** The characters __init__ strips, in the order of its replace calls (cnpj.py:54-56). */
  const StripChars: seq<char> := ['.', '-', '/']

  /** Where __str__ inserts which separator, in order (cnpj.py:123). */
  const Separators: seq<(nat, string)> := [(2, "."), (6, "."), (10, "/"), (15, "-")]

  /** A string after the stripping in __init__ (cnpj.py:53-56): separators are
      removed unless the string is already all digits. */
  function Stripped(s: string): string {
    if IsDigit(s) then s else DeleteAll(s, StripChars)
  }

  /** The input after cnpj.py:52-59. The test at cnpj.py:58 names the method
      isdigit without calling it, so it never raises and is not modelled. */
  function StrippedInput(raw: Raw): Raw {
    match raw
    case Text(s) => Text(Stripped(s))
    case Digits(_) => raw
  }

  /** The text __str__ produces for a digit list: separators inserted into the
      list of written-out digits, then joined. */
  function Formatted(ds: seq<int>): string {
    Join(InsertAll(MapStr(ds), Separators))
  }

  /** The XX.XXX.XXX/XXXX-XX layout of 14 digits. */
  function Punctuated(ds: seq<int>): string
    requires |ds| == 14
  {
    JoinStr(ds[..2]) + "." + JoinStr(ds[2..5]) + "." + JoinStr(ds[5..8]) + "/"
      + JoinStr(ds[8..12]) + "-" + JoinStr(ds[12..])
  }

  /** The ascending weights of the usual "mod 11, then mod 10" formulation of the
      same rule, for the first and the second check digit. */
  const AscendingWeights12: seq<int> := [6, 7, 8, 9, 2, 3, 4, 5, 6, 7, 8, 9]
  const AscendingWeights13: seq<int> := [5, 6, 7, 8, 9, 2, 3, 4, 5, 6, 7, 8, 9]

  /** An independent statement of the Receita Federal rule for 14 digits. */
  predicate ReferenceValid(ds: seq<int>) {
    |ds| == 14
    && ds[12] == ZipSum(ds[..12], AscendingWeights12) % 11 % 10
    && ds[13] == ZipSum(ds[..13], AscendingWeights13) % 11 % 10
  }

  /** A Cnpj object; `digits` is the list self.cnpj, set once by __init__. */
  datatype Cnpj = Cnpj(digits: seq<int>) {

    /** What valido() decides (cnpj.py:141-158): exactly 14 digits, and the two
        trailing ones are the check digits of the first 12 and the first 13. */
    predicate Valid() {
      |digits| == 14
      && digits[12] == CheckDigit(ZipSum(digits[..12], Weights))
      && digits[13] == CheckDigit(ZipSum(digits[..13], [6] + Weights))
    }

    /** valido(): recompute the check digits from the first 12 and compare the
        whole list with the stored one. */
    method Valido() returns (ok: bool)
      ensures ok == Valid()
    {
      var c := Take(digits, 12);
      var prod := Weights;
      while |c| < 14
        invariant |c| <= 14
        invariant |digits| == 14 ==> 12 <= |c| && c[..12] == digits[..12]
        invariant |digits| == 14 && |c| == 12 ==> prod == Weights
        invariant |digits| == 14 && |c| == 13 ==> prod == [6] + Weights
        invariant |digits| == 14 && |c| > 12 ==> c[12] == CheckDigit(ZipSum(c[..12], Weights))
        invariant |digits| == 14 && |c| > 13 ==> c[13] == CheckDigit(ZipSum(c[..13], [6] + Weights))
        decreases 14 - |c|
      {
        var r := ZipSum(c, prod) % 11;
        var f;
        if r > 1 {
          f := 11 - r;
        } else {
          f := 0;
        }
        assert |digits| == 14 ==> c[..|c|] == c;
        c := c + [f];
        prod := [6] + prod;
      }
      ok := c == digits;
      if |digits| == 14 {
        assert c[..12] == digits[..12];
        if Valid() {
          assert c[..13] == digits[..13] by {
            assert c[..13] == c[..12] + [c[12]];
            assert digits[..13] == digits[..12] + [digits[12]];
          }
          assert c == c[..13] + [c[13]];
          assert digits == digits[..13] + [digits[13]];
        }
      }
    }

    /** __nonzero__ (cnpj.py:160-180): truth value of the object is valido(). */
    method NonZero() returns (b: bool)
      ensures b == Valid()
    {
      b := Valido();
    }

    /** __getitem__ (cnpj.py:67-81): the digit at a Python index, as a string. */
    function GetItem(index: int): (r: Result<string>)
      ensures r.Success? <==> -|digits| <= index < |digits|
      ensures r.Failure? ==> r.error == IndexOutOfRange
      ensures r.Success? && AllDecimal(digits) ==>
        var k := if index < 0 then index + |digits| else index;
        |r.value| == 1 && r.value[0] == DigitChar(digits[k])
    {
      if 0 <= index < |digits| then Success(IntToString(digits[index]))
      else if -|digits| <= index < 0 then Success(IntToString(digits[|digits| + index]))
      else Failure(IndexOutOfRange)
    }

    /** plain() (cnpj.py:182-183): the digits written out without separators. */
    function Plain(): (r: string)
      ensures AllDecimal(digits) ==> IntList(r) == Success(digits)
    {
      IntListOfJoinStr(digits);
      JoinStr(digits)
    }

    /** __repr__ (cnpj.py:83-95): the expression Cnpj('<plain>'). */
    function Repr(): (r: string)
      ensures |r| == |Plain()| + 8
      ensures r[..6] == "Cnpj('" && r[6..|r| - 2] == Plain() && r[|r| - 2..] == "')"
    {
      "Cnpj('" + Plain() + "')"
    }

    /** __eq__ (cnpj.py:97-113) between two Cnpj objects: equal digit lists. */
    function Eq(other: Cnpj): (b: bool)
      ensures b <==> this == other
    {
      digits == other.digits
    }

    /** __str__ (cnpj.py:115-128): insert the separators into the list of
        written-out digits, one after the other, and join. */
    method Str() returns (r: string)
      ensures r == Formatted(digits)
      ensures |digits| == 14 ==> r == Punctuated(digits)
    {
      var s := MapStr(digits);
      for k := 0 to |Separators|
        invariant s == InsertAll(MapStr(digits), Separators[..k])
      {
        var (i, v) := Separators[k];
        assert Separators[..k + 1][..k] == Separators[..k];
        s := Insert(s, i, v);
      }
      assert Separators[..|Separators|] == Separators;
      r := Join(s);
      if |digits| == 14 {
        FormattedLayout(digits);
      }
    }
  }

  /** Cnpj(raw): __init__ (cnpj.py:39-64). A stripped input shorter than 14 is
      replaced by 14 - len zeros; map(int, ...) then fails on a non-digit. */
  function Init(raw: Raw): (r: Result<Cnpj>)
    ensures r.Failure? <==> raw.Text? && |Stripped(raw.s)| >= 14 && !IsDigit(Stripped(raw.s))
    ensures r.Failure? ==> r.error == IntLiteral
    ensures r.Success? && raw.Text? ==> AllDecimal(r.value.digits)
    // which digits: zeros for a short input, otherwise the list as given or the
    // stripped characters' values in order
    ensures Len(StrippedInput(raw)) < 14 ==> r == Success(Cnpj(seq(14 - Len(StrippedInput(raw)), _ => 0)))
    ensures r.Success? && raw.Digits? && |raw.ds| >= 14 ==> r.value.digits == raw.ds
    ensures r.Success? && raw.Text? && |Stripped(raw.s)| >= 14 ==> IntList(Stripped(raw.s)) == Success(r.value.digits)
  {
    var x := StrippedInput(raw);
    if Len(x) < 14 then
      ZerosValue(14 - Len(x));
      match MapInt(Text(Zeros(14 - Len(x))))
      case Success(ds) => Success(Cnpj(ds))
      case Failure(e) => Failure(e)
    else
      var ds :- MapInt(x);
      Success(Cnpj(ds))
  }

  // ----- lemmas -----

  /** The isdigit() guard at cnpj.py:53 changes nothing: an all-digit string has
      no separator to remove. */
  lemma StrippedIsReplaceChain(s: string)
    ensures Stripped(s) == DeleteAll(s, StripChars)
  {
    if IsDigit(s) {
      DeleteAllAbsent(s, StripChars);
    }
  }

  /** The four inserts of __str__, one after the other. */
  lemma InsertAllSeparators(m: seq<string>)
    ensures InsertAll(m, Separators) == Insert(Insert(Insert(Insert(m, 2, "."), 6, "."), 10, "/"), 15, "-")
  {
    assert Separators[..1][..0] == [];
    assert InsertAll(m, Separators[..1]) == Insert(m, 2, ".");
    assert Separators[..2][..1] == Separators[..1];
    assert InsertAll(m, Separators[..2]) == Insert(InsertAll(m, Separators[..1]), 6, ".");
    assert Separators[..3][..2] == Separators[..2];
    assert InsertAll(m, Separators[..3]) == Insert(InsertAll(m, Separators[..2]), 10, "/");
    assert Separators[..3] == Separators[..|Separators| - 1];
  }

  /** On 14 entries the inserts land between the groups of 2, 3, 3, 4 and 2. */
  lemma InsertedGroups(m: seq<string>)
    requires |m| == 14
    ensures InsertAll(m, Separators)
      == m[..2] + ["."] + m[2..5] + ["."] + m[5..8] + ["/"] + m[8..12] + ["-"] + m[12..]
  {
    InsertAllSeparators(m);
    FourInserts(m);
  }

  lemma FourInserts(m: seq<string>)
    requires |m| == 14
    ensures Insert(Insert(Insert(Insert(m, 2, "."), 6, "."), 10, "/"), 15, "-")
      == m[..2] + ["."] + m[2..5] + ["."] + m[5..8] + ["/"] + m[8..12] + ["-"] + m[12..]
  {
    DotsInserted(m);
    SlashInserted(m);
    DashInserted(m);
  }

  /** The two dots of the 14-digit layout, at list positions 2 and 6. */
  lemma DotsInserted(m: seq<string>)
    requires |m| == 14
    ensures Insert(Insert(m, 2, "."), 6, ".") == m[..2] + ["."] + m[2..5] + ["."] + m[5..]
  {
    assert Insert(m, 2, ".") == m[..2] + ["."] + m[2..];
    InsertAfterInserted(m[..2], ".", m[2..], 3, ".");
    assert m[2..][..3] == m[2..5] && m[2..][3..] == m[5..];
  }

  /** The slash after the dots, at list position 10. */
  lemma SlashInserted(m: seq<string>)
    requires |m| == 14
    ensures Insert(m[..2] + ["."] + m[2..5] + ["."] + m[5..], 10, "/")
      == m[..2] + ["."] + m[2..5] + ["."] + m[5..8] + ["/"] + m[8..]
  {
    InsertAfterInserted(m[..2] + ["."] + m[2..5], ".", m[5..], 3, "/");
    assert m[5..][..3] == m[5..8] && m[5..][3..] == m[8..];
  }

  /** The dash after the slash, at list position 15. */
  lemma DashInserted(m: seq<string>)
    requires |m| == 14
    ensures Insert(m[..2] + ["."] + m[2..5] + ["."] + m[5..8] + ["/"] + m[8..], 15, "-")
      == m[..2] + ["."] + m[2..5] + ["."] + m[5..8] + ["/"] + m[8..12] + ["-"] + m[12..]
  {
    InsertAfterInserted(m[..2] + ["."] + m[2..5] + ["."] + m[5..8], "/", m[8..], 4, "-");
    assert m[8..][..4] == m[8..12] && m[8..][4..] == m[12..];
  }

  /** The 14-digit __str__ layout: separators at list positions 2, 6, 10 and 15. */
  lemma FormattedLayout(ds: seq<int>)
    requires |ds| == 14
    ensures Formatted(ds) == Punctuated(ds)
  {
    var m := MapStr(ds);
    InsertedGroups(m);
    MapStrSlice(ds, 0, 2);
    MapStrSlice(ds, 2, 5);
    MapStrSlice(ds, 5, 8);
    MapStrSlice(ds, 8, 12);
    MapStrSlice(ds, 12, 14);
    assert ds[..2] == ds[0..2] && ds[12..] == ds[12..14];
    assert m[..2] == m[0..2] && m[12..] == m[12..14];
    JoinPieces(m[..2], m[2..5], m[5..8], m[8..12], m[12..], ".", ".", "/", "-");
  }

  lemma JoinPieces(p1: seq<string>, p2: seq<string>, p3: seq<string>, p4: seq<string>, p5: seq<string>,
                   s1: string, s2: string, s3: string, s4: string)
    ensures Join(p1 + [s1] + p2 + [s2] + p3 + [s3] + p4 + [s4] + p5)
      == Join(p1) + s1 + Join(p2) + s2 + Join(p3) + s3 + Join(p4) + s4 + Join(p5)
  {
    var q1 := p1 + [s1];
    var q2 := q1 + p2;
    var q3 := q2 + [s2];
    var q4 := q3 + p3;
    var q5 := q4 + [s3];
    var q6 := q5 + p4;
    var q7 := q6 + [s4];
    JoinAppend(p1, [s1]);
    JoinAppend(q1, p2);
    JoinAppend(q2, [s2]);
    JoinAppend(q3, p3);
    JoinAppend(q4, [s3]);
    JoinAppend(q5, p4);
    JoinAppend(q6, [s4]);
    JoinAppend(q7, p5);
    assert Join([s1]) == s1 && Join([s2]) == s2 && Join([s3]) == s3 && Join([s4]) == s4;
  }

  /** A stripped input shorter than 14 is replaced by 14 - len zeros, not padded;
      the result is valid only when the stripped input was empty. */
  lemma ShortInputReplaced(raw: Raw)
    requires Len(StrippedInput(raw)) < 14
    ensures Init(raw) == Success(Cnpj(seq(14 - Len(StrippedInput(raw)), _ => 0)))
    ensures Init(raw).value.Valid() <==> Len(StrippedInput(raw)) == 0
  {
    if Len(StrippedInput(raw)) == 0 {
      ZerosValid();
    }
  }

  /** Fourteen zeros pass the check: both weighted sums are 0, so both check digits are 0. */
  lemma ZerosValid()
    ensures Cnpj(seq(14, _ => 0)).Valid()
  {
    var z := seq(14, _ => 0);
    ZipSumFromZeros(z[..12], Weights, 0);
    ZipSumFromZeros(z[..13], [6] + Weights, 0);
  }

  /** Cnpj(x.plain()) == x for at least 14 decimal digits. */
  lemma {:induction false} PlainRoundTrip(c: Cnpj)
    requires |c.digits| >= 14 && AllDecimal(c.digits)
    ensures Init(Text(c.Plain())) == Success(c)
  {
    IntListOfJoinStr(c.digits);
    JoinStrDecimal(c.digits);
  }

  /** eval(repr(x)) == x: the quoted argument of the repr constructs an equal object. */
  lemma ReprRoundTrip(c: Cnpj)
    requires |c.digits| >= 14 && AllDecimal(c.digits)
    ensures c.Repr()[..6] == "Cnpj('" && c.Repr()[|c.Repr()| - 2..] == "')"
    ensures Init(Text(c.Repr()[6..|c.Repr()| - 2])) == Success(c)
  {
    assert c.Repr()[6..|c.Repr()| - 2] == c.Plain();
    PlainRoundTrip(c);
  }

  /** Below 14 digits the round trips mostly fail: a shorter object's plain() is itself
      a short input, which the constructor replaces by zeros. Only seven zeros come back. */
  lemma ShortPlainRoundTrip(c: Cnpj)
    requires |c.digits| < 14 && AllDecimal(c.digits)
    ensures Init(Text(c.Plain())) == Success(Cnpj(seq(14 - |c.digits|, _ => 0)))
    ensures Init(Text(c.Plain())) == Success(c)
      <==> |c.digits| == 7 && forall k :: 0 <= k < 7 ==> c.digits[k] == 0
  {
    IntListOfJoinStr(c.digits);
    JoinStrDecimal(c.digits);
    ShortInputReplaced(Text(c.Plain()));
    if |c.digits| == 7 && forall k :: 0 <= k < 7 ==> c.digits[k] == 0 {
      assert c.digits == seq(7, _ => 0);
    }
  }

  /** Cnpj(str(x)) == x: the punctuated form parses back to the same digits. */
  lemma {:induction false} FormattedRoundTrip(c: Cnpj)
    requires |c.digits| >= 14 && AllDecimal(c.digits)
    ensures Init(Text(Formatted(c.digits))) == Success(c)
  {
    var f := Formatted(c.digits);
    forall k | 0 <= k < |Separators| ensures IsSeparator(Separators[k].1, StripChars) {
    }
    StripFormatted(c.digits, Separators, StripChars);
    StrippedIsReplaceChain(f);
    IntListOfJoinStr(c.digits);
    JoinStrDecimal(c.digits);
  }

  /** The prepend-a-6 weights agree with the ascending-weight, mod-11-then-mod-10
      statement of the rule. */
  lemma ValidMatchesReference(c: Cnpj)
    ensures c.Valid() <==> ReferenceValid(c.digits)
  {
    if |c.digits| == 14 {
      ComplementaryRule(c.digits[..12], Weights, AscendingWeights12);
      ComplementaryRule(c.digits[..13], [6] + Weights, AscendingWeights13);
    }
  }

  /** The check digits are determined by the first 12: two valid numbers that
      share them are equal. */
  lemma {:induction false} CheckDigitsDetermined(a: Cnpj, b: Cnpj)
    requires a.Valid() && b.Valid() && a.digits[..12] == b.digits[..12]
    ensures a == b
  {
    assert a.digits[..13] == a.digits[..12] + [a.digits[12]];
    assert b.digits[..13] == b.digits[..12] + [b.digits[12]];
    assert a.digits == a.digits[..13] + [a.digits[13]];
    assert b.digits == b.digits[..13] + [b.digits[13]];
  }

  /** str(x) is plain() with the separators put in: XX.XXX.XXX/XXXX-XX. */
  lemma FormattedFromPlain(c: Cnpj)
    requires |c.digits| == 14 && AllDecimal(c.digits)
    ensures var p := c.Plain();
      |p| == 14 && Formatted(c.digits) == p[..2] + "." + p[2..5] + "." + p[5..8] + "/" + p[8..12] + "-" + p[12..]
  {
    var ds := c.digits;
    FormattedLayout(ds);
    JoinStrSlice(ds, 0, 2);
    JoinStrSlice(ds, 2, 5);
    JoinStrSlice(ds, 5, 8);
    JoinStrSlice(ds, 8, 12);
    JoinStrSlice(ds, 12, 14);
    assert ds[..2] == ds[0..2] && ds[12..] == ds[12..14];
  }

  // ----- the numbers of the doctests (cnpj.py:21-35, 43-45, 133-138) -----

  /** The digits of a and b in the doctests, and those of c, which differ in the last place. */
  const ExampleDigits: seq<int> := [1, 1, 2, 2, 2, 3, 3, 3, 0, 0, 0, 1, 8, 1]
  const OtherDigits: seq<int> := [1, 1, 2, 2, 2, 3, 3, 3, 0, 0, 0, 1, 8, 2]

  /** The strings a and b are built from, and the str() of a and c. */
  const ExampleText: string := "11222333000181"
  const ExamplePunctuated: string := "11.222.333/0001-81"
  const OtherText: string := "11222333000182"
  const OtherPunctuated: string := "11.222.333/0001-82"

  lemma DoctestDigitsDecimal()
    ensures AllDecimal(ExampleDigits) && AllDecimal(OtherDigits)
  {
  }

  lemma ExamplePlain()
    ensures Cnpj(ExampleDigits).Plain() == ExampleText
  {
    DoctestDigitsDecimal();
    JoinStrSpells(ExampleDigits, ExampleText);
  }

  lemma OtherPlain()
    ensures Cnpj(OtherDigits).Plain() == OtherText
  {
    DoctestDigitsDecimal();
    JoinStrSpells(OtherDigits, OtherText);
  }

  lemma ExampleLayout()
    ensures var p := ExampleText;
      p[..2] + "." + p[2..5] + "." + p[5..8] + "/" + p[8..12] + "-" + p[12..] == ExamplePunctuated
  {
    var p := ExampleText;
    assert p[..2] == "11" && p[2..5] == "222" && p[5..8] == "333" && p[8..12] == "0001" && p[12..] == "81";
  }

  lemma OtherLayout()
    ensures var p := OtherText;
      p[..2] + "." + p[2..5] + "." + p[5..8] + "/" + p[8..12] + "-" + p[12..] == OtherPunctuated
  {
    var p := OtherText;
    assert p[..2] == "11" && p[2..5] == "222" && p[5..8] == "333" && p[8..12] == "0001" && p[12..] == "82";
  }

  /** a = Cnpj('11222333000181') holds the example digits. */
  lemma DoctestFromPlain()
    ensures Init(Text(ExampleText)) == Success(Cnpj(ExampleDigits))
  {
    DoctestDigitsDecimal();
    ExamplePlain();
    PlainRoundTrip(Cnpj(ExampleDigits));
  }

  /** str(a) == "11.222.333/0001-81" */
  lemma DoctestExampleFormat()
    ensures Formatted(ExampleDigits) == ExamplePunctuated
  {
    DoctestDigitsDecimal();
    ExamplePlain();
    FormattedFromPlain(Cnpj(ExampleDigits));
    ExampleLayout();
  }

  /** str(c) == "11.222.333/0001-82": __str__ formats an invalid number too. */
  lemma DoctestOtherFormat()
    ensures Formatted(OtherDigits) == OtherPunctuated
  {
    DoctestDigitsDecimal();
    OtherPlain();
    FormattedFromPlain(Cnpj(OtherDigits));
    OtherLayout();
  }

  /** b = Cnpj('11.222.333/0001-81') equals a, and so do their str(). */
  lemma DoctestFromFormatted()
    ensures Init(Text(ExamplePunctuated)) == Success(Cnpj(ExampleDigits))
  {
    DoctestDigitsDecimal();
    DoctestExampleFormat();
    FormattedRoundTrip(Cnpj(ExampleDigits));
  }

  /** c = Cnpj([1, 1, 2, 2, 2, 3, 3, 3, 0, 0, 0, 1, 8, 2]) keeps the list, and differs from a. */
  lemma DoctestFromList()
    ensures Init(Digits(OtherDigits)) == Success(Cnpj(OtherDigits))
    ensures Init(Digits(OtherDigits)) != Init(Text(ExampleText))
  {
    DoctestFromPlain();
    assert ExampleDigits[13] != OtherDigits[13];
  }

  /** b = Cnpj('11222333000182') in the doctest of valido() holds the digits of c. */
  lemma DoctestOtherFromPlain()
    ensures Init(Text(OtherText)) == Success(Cnpj(OtherDigits))
  {
    DoctestDigitsDecimal();
    OtherPlain();
    PlainRoundTrip(Cnpj(OtherDigits));
  }

  /** a[9] == '0' and a[10] == '0' (cnpj.py:67-78); a[14] raises IndexError. */
  lemma DoctestGetItem()
    ensures Cnpj(ExampleDigits).GetItem(9) == Success("0")
    ensures Cnpj(ExampleDigits).GetItem(10) == Success("0")
    ensures Cnpj(ExampleDigits).GetItem(14) == Failure(IndexOutOfRange)
  {
    assert ExampleDigits[9] == 0 && ExampleDigits[10] == 0;
    assert IntToString(0) == "0";
  }

  /** print repr(a) shows Cnpj('11222333000181') (cnpj.py:83-93). */
  lemma ReprSpelled()
    ensures "Cnpj('" + ExampleText + "')" == "Cnpj('11222333000181')"
  {
  }

  lemma DoctestRepr()
    ensures Cnpj(ExampleDigits).Repr() == "Cnpj('11222333000181')"
  {
    ExamplePlain();
    ReprSpelled();
  }

  /** Validity of 14 digits once the two weighted sums are known. */
  lemma ValidBySums(c: Cnpj, s12: int, s13: int)
    requires |c.digits| == 14
    requires ZipSum(c.digits[..12], Weights) == s12
    requires ZipSum(c.digits[..13], [6] + Weights) == s13
    ensures c.Valid() <==> c.digits[12] == CheckDigit(s12) && c.digits[13] == CheckDigit(s13)
  {
  }

  lemma DoctestSums()
    ensures ZipSum(ExampleDigits[..12], Weights) == 102
    ensures ZipSum(ExampleDigits[..13], [6] + Weights) == 120
  {
    assert ExampleDigits[..12] == [1, 1, 2, 2, 2, 3, 3, 3, 0, 0, 0, 1];
    assert ZipSum([1, 1, 2, 2, 2, 3, 3, 3, 0, 0, 0, 1], [5, 4, 3, 2, 9, 8, 7, 6, 5, 4, 3, 2]) == 102;
    assert ExampleDigits[..13] == [1, 1, 2, 2, 2, 3, 3, 3, 0, 0, 0, 1, 8];
    assert [6] + Weights == [6, 5, 4, 3, 2, 9, 8, 7, 6, 5, 4, 3, 2];
    assert ZipSum([1, 1, 2, 2, 2, 3, 3, 3, 0, 0, 0, 1, 8], [6, 5, 4, 3, 2, 9, 8, 7, 6, 5, 4, 3, 2]) == 120;
  }

  /** With the doctest's first 13 digits, the number is valid exactly when the last is 1. */
  lemma DoctestLastDigit(a: seq<int>)
    requires |a| == 14 && a[..13] == ExampleDigits[..13]
    ensures Cnpj(a).Valid() <==> a[13] == 1
  {
    assert a[..12] == a[..13][..12];
    assert ExampleDigits[..12] == ExampleDigits[..13][..12];
    DoctestSums();
    ValidBySums(Cnpj(a), 102, 120);
    assert CheckDigit(102) == 8 && CheckDigit(120) == 1;
  }

  /** a.valido() and not c.valido() (cnpj.py:24-26, 133-138). */
  lemma DoctestValidity()
    ensures Cnpj(ExampleDigits).Valid()
    ensures !Cnpj(OtherDigits).Valid()
  {
    assert OtherDigits[..13] == ExampleDigits[..13];
    DoctestLastDigit(ExampleDigits);
    DoctestLastDigit(OtherDigits);
  }
}
