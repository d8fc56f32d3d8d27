/** The few Python 2 built-ins the identifier classes rely on, stated over Dafny
    values: str.isdigit, str.replace(c, ""), '0' * n, int() on one character,
    str() on an int, ''.join, list slicing s[:n], list.insert and the sum of a
    zip of two lists. Also the raised exceptions and the two input shapes that
    the constructors accept. Characters are ASCII. */
module Builtins {

  /** The exceptions the core can raise. */
  datatype Error =
    | IntLiteral          // ValueError from int() on a non-digit character
    | CpfFormat           // ValueError raised by Cpf.__init__ after stripping
    | InvalidIdentifier   // ValueError('CNPJ/CPF inválido') from the classifier
    | IndexOutOfRange     // IndexError from __getitem__

  /** A value or the exception that was raised instead. */
  datatype Result<+T> = Success(value: T) | Failure(error: Error) {
    predicate IsFailure() { Failure? }

    function PropagateFailure<U>(): Result<U>
      requires Failure?
    {
      Failure(error)
    }

    function Extract(): T
      requires Success?
    {
      value
    }
  }

  /** What a constructor is given: a string, or a list or tuple of ints. */
  datatype Raw = Text(s: string) | Digits(ds: seq<int>)

  /** len() of either kind of input. */
  function Len(raw: Raw): nat {
    match raw
    case Text(s) => |s|
    case Digits(ds) => |ds|
  }

  predicate IsDecimalChar(c: char) { '0' <= c <= '9' }

  /** str.isdigit(): at least one character, and every character a digit. */
  predicate IsDigit(s: string) {
    |s| > 0 && forall i :: 0 <= i < |s| ==> IsDecimalChar(s[i])
  }

  predicate AllDecimal(ds: seq<int>) {
    forall i :: 0 <= i < |ds| ==> 0 <= ds[i] <= 9
  }

  function CharValue(c: char): int { c as int - '0' as int }

  function DigitChar(n: int): (c: char)
    requires 0 <= n <= 9
    ensures IsDecimalChar(c) && CharValue(c) == n
  {
    ('0' as int + n) as char
  }

  /** s.replace(c, ""): every occurrence of c removed, the rest kept in order. */
  function Delete(s: string, c: char): (r: string)
    ensures c !in r
    ensures forall x :: x in r ==> x in s
    ensures forall x :: x in s && x != c ==> x in r
    ensures |r| <= |s|
  {
    if s == [] then []
    else if s[0] == c then Delete(s[1..], c)
    else [s[0]] + Delete(s[1..], c)
  }

  /** The chain s.replace(cs[0], "").replace(cs[1], "")... in that order. */
  function DeleteAll(s: string, cs: seq<char>): (r: string)
    ensures forall c :: c in cs ==> c !in r
    ensures forall x :: x in r ==> x in s
    decreases |cs|
  {
    if cs == [] then s else DeleteAll(Delete(s, cs[0]), cs[1..])
  }

  /** '0' * n */
  function Zeros(n: nat): string {
    seq(n, _ => '0')
  }

  /** map(int, s) for a string s: fails on the first character that is not a digit. */
  function IntList(s: string): (r: Result<seq<int>>)
    ensures r.Success? <==> forall i :: 0 <= i < |s| ==> IsDecimalChar(s[i])
    ensures r.Success? ==> |r.value| == |s| && forall i :: 0 <= i < |s| ==> r.value[i] == CharValue(s[i])
    ensures r.Failure? ==> r.error == IntLiteral
  {
    if s == [] then Success([])
    else if !IsDecimalChar(s[0]) then Failure(IntLiteral)
    else
      match IntList(s[1..])
      case Success(rest) => Success([CharValue(s[0])] + rest)
      case Failure(e) => Failure(e)
  }

  /** map(int, x) for either kind of input (int() of an int is that int). */
  function MapInt(raw: Raw): Result<seq<int>> {
    match raw
    case Text(s) => IntList(s)
    case Digits(ds) => Success(ds)
  }

  function NatToString(n: nat): (r: string)
    ensures |r| >= 1
    ensures forall i :: 0 <= i < |r| ==> IsDecimalChar(r[i])
    decreases n
  {
    if n < 10 then [DigitChar(n)] else NatToString(n / 10) + [DigitChar(n % 10)]
  }

  /** str(n) for an int n. */
  function IntToString(n: int): string {
    if n < 0 then "-" + NatToString(-n) else NatToString(n)
  }

  /** map(str, ds) */
  function MapStr(ds: seq<int>): (r: seq<string>)
    ensures |r| == |ds|
  {
    seq(|ds|, i requires 0 <= i < |ds| => IntToString(ds[i]))
  }

  /** ''.join(ss) */
  function Join(ss: seq<string>): string {
    if ss == [] then "" else ss[0] + Join(ss[1..])
  }

  /** ''.join(map(str, ds)): the digits written out one after the other. */
  function JoinStr(ds: seq<int>): string {
    Join(MapStr(ds))
  }

  /** s[:n] */
  function Take<T>(s: seq<T>, n: nat): (r: seq<T>)
    ensures |r| == if |s| <= n then |s| else n
    ensures r == s[..|r|]
  {
    if |s| <= n then s else s[..n]
  }

  /** s.insert(i, x) for i >= 0: past the end it appends. */
  function Insert<T>(s: seq<T>, i: nat, x: T): seq<T> {
    if i <= |s| then s[..i] + [x] + s[i..] else s + [x]
  }

  /** sum(x * y for (x, y) in zip(xs, ws)): zip stops at the shorter list. */
  function ZipSum(xs: seq<int>, ws: seq<int>): int {
    ZipSumFrom(xs, ws, 0)
  }

  /** The same sum over the pairs from position i on. */
  function ZipSumFrom(xs: seq<int>, ws: seq<int>, i: nat): int
    decreases |xs| - i
  {
    if i >= |xs| || i >= |ws| then 0 else xs[i] * ws[i] + ZipSumFrom(xs, ws, i + 1)
  }

  /** The list after s.insert(i, x) for each (i, x) of t, in order. */
  function InsertAll(s: seq<string>, t: seq<(nat, string)>): seq<string>
    decreases |t|
  {
    if t == [] then s else Insert(InsertAll(s, t[..|t| - 1]), t[|t| - 1].0, t[|t| - 1].1)
  }

  /** A one-character string whose character is one of the separators cs. */
  predicate IsSeparator(x: string, cs: seq<char>) {
    |x| == 1 && x[0] in cs
  }

  /** The entries of ss that are not separators. */
  function DropSeparators(ss: seq<string>, cs: seq<char>): seq<string> {
    if ss == [] then []
    else if IsSeparator(ss[0], cs) then DropSeparators(ss[1..], cs)
    else [ss[0]] + DropSeparators(ss[1..], cs)
  }

  // ----- lemmas about the built-ins -----

  lemma {:induction false} JoinAppend(a: seq<string>, b: seq<string>)
    ensures Join(a + b) == Join(a) + Join(b)
  {
    if a == [] {
      assert a + b == b;
    } else {
      assert (a + b)[1..] == a[1..] + b;
      JoinAppend(a[1..], b);
    }
  }

  /** Slicing commutes with map(str, .). */
  lemma MapStrSlice(ds: seq<int>, i: nat, j: nat)
    requires i <= j <= |ds|
    ensures MapStr(ds)[i..j] == MapStr(ds[i..j])
  {
  }

  /** Writing out decimal digits gives one character per digit, and that character
      reads back as the digit. */
  lemma {:induction false} JoinStrDecimal(ds: seq<int>)
    requires AllDecimal(ds)
    ensures |JoinStr(ds)| == |ds|
    ensures forall i :: 0 <= i < |ds| ==> JoinStr(ds)[i] == DigitChar(ds[i])
  {
    if ds != [] {
      assert MapStr(ds)[1..] == MapStr(ds[1..]);
      assert MapStr(ds)[0] == [DigitChar(ds[0])];
      JoinStrDecimal(ds[1..]);
    }
  }

  /** ''.join(map(str, ds)) is the string s that spells the digits ds. */
  lemma JoinStrSpells(ds: seq<int>, s: string)
    requires AllDecimal(ds) && |s| == |ds|
    requires forall i :: 0 <= i < |ds| ==> s[i] == DigitChar(ds[i])
    ensures JoinStr(ds) == s
  {
    JoinStrDecimal(ds);
  }

  /** Writing out a slice of decimal digits gives the same slice of the written-out string. */
  lemma JoinStrSlice(ds: seq<int>, i: nat, j: nat)
    requires AllDecimal(ds) && i <= j <= |ds|
    ensures |JoinStr(ds)| == |ds| && JoinStr(ds[i..j]) == JoinStr(ds)[i..j]
  {
    JoinStrDecimal(ds);
    JoinStrDecimal(ds[i..j]);
  }

  /** map(int, ''.join(map(str, ds))) == ds for decimal digits. */
  lemma IntListOfJoinStr(ds: seq<int>)
    ensures AllDecimal(ds) ==> IsDigit(JoinStr(ds)) || ds == []
    ensures AllDecimal(ds) ==> IntList(JoinStr(ds)) == Success(ds)
  {
    if AllDecimal(ds) {
      JoinStrDecimal(ds);
      var r := IntList(JoinStr(ds));
      assert r.Success?;
      assert r.value == ds;
    }
  }

  lemma {:induction false} DeleteAppend(a: string, b: string, c: char)
    ensures Delete(a + b, c) == Delete(a, c) + Delete(b, c)
  {
    if a == [] {
      assert a + b == b;
    } else {
      assert (a + b)[1..] == a[1..] + b;
      DeleteAppend(a[1..], b, c);
    }
  }

  lemma {:induction false} DeleteAbsent(s: string, c: char)
    requires c !in s
    ensures Delete(s, c) == s
  {
    if s != [] {
      assert s[0] != c;
      assert c !in s[1..];
      DeleteAbsent(s[1..], c);
    }
  }

  lemma {:induction false} DeleteAllAppend(a: string, b: string, cs: seq<char>)
    ensures DeleteAll(a + b, cs) == DeleteAll(a, cs) + DeleteAll(b, cs)
    decreases |cs|
  {
    if cs != [] {
      DeleteAppend(a, b, cs[0]);
      DeleteAllAppend(Delete(a, cs[0]), Delete(b, cs[0]), cs[1..]);
    }
  }

  lemma {:induction false} DeleteAllAbsent(s: string, cs: seq<char>)
    requires forall c :: c in cs ==> c !in s
    ensures DeleteAll(s, cs) == s
    decreases |cs|
  {
    if cs != [] {
      DeleteAbsent(s, cs[0]);
      DeleteAllAbsent(s, cs[1..]);
    }
  }

  /** A character that is not one of cs survives the replace chain. */
  lemma {:induction false} DeleteAllKeeps(s: string, cs: seq<char>, x: char)
    requires x in s && x !in cs
    ensures x in DeleteAll(s, cs)
    decreases |cs|
  {
    if cs != [] {
      assert x != cs[0];
      DeleteAllKeeps(Delete(s, cs[0]), cs[1..], x);
    }
  }

  lemma {:induction false} DeleteAllSeparator(x: string, cs: seq<char>)
    requires IsSeparator(x, cs)
    ensures DeleteAll(x, cs) == ""
    decreases |cs|
  {
    if x[0] == cs[0] {
      assert x == [cs[0]];
      assert Delete(x, cs[0]) == "";
      DeleteAllAbsent("", cs[1..]);
    } else {
      assert Delete(x, cs[0]) == x by {
        DeleteAbsent(x, cs[0]);
      }
      DeleteAllSeparator(x, cs[1..]);
    }
  }

  lemma {:induction false} DropSeparatorsAppend(a: seq<string>, b: seq<string>, cs: seq<char>)
    ensures DropSeparators(a + b, cs) == DropSeparators(a, cs) + DropSeparators(b, cs)
  {
    if a != [] {
      assert (a + b)[1..] == a[1..] + b;
      DropSeparatorsAppend(a[1..], b, cs);
    } else {
      assert a + b == b;
    }
  }

  /** Inserting separators and then dropping them gives back the separator-free entries. */
  lemma {:induction false} DropInsertedSeparators(s: seq<string>, t: seq<(nat, string)>, cs: seq<char>)
    requires forall k :: 0 <= k < |t| ==> IsSeparator(t[k].1, cs)
    ensures DropSeparators(InsertAll(s, t), cs) == DropSeparators(s, cs)
    decreases |t|
  {
    if t != [] {
      var u := InsertAll(s, t[..|t| - 1]);
      var (i, x) := t[|t| - 1];
      DropInsertedSeparators(s, t[..|t| - 1], cs);
      assert DropSeparators([x], cs) == [];
      if i <= |u| {
        assert u == u[..i] + u[i..];
        DropSeparatorsAppend(u[..i], u[i..], cs);
        DropSeparatorsAppend(u[..i] + [x], u[i..], cs);
        DropSeparatorsAppend(u[..i], [x], cs);
      } else {
        DropSeparatorsAppend(u, [x], cs);
      }
    }
  }

  /** Deleting the separator characters from a joined list is the same as dropping the
      separator entries before joining, when no other entry holds a separator character. */
  lemma {:induction false} DeleteAllJoin(ss: seq<string>, cs: seq<char>)
    requires forall k :: 0 <= k < |ss| ==> IsSeparator(ss[k], cs) || forall c :: c in cs ==> c !in ss[k]
    ensures DeleteAll(Join(ss), cs) == Join(DropSeparators(ss, cs))
  {
    if ss == [] {
      DeleteAllAbsent("", cs);
    } else {
      DeleteAllJoin(ss[1..], cs);
      DeleteAllAppend(ss[0], Join(ss[1..]), cs);
      if IsSeparator(ss[0], cs) {
        DeleteAllSeparator(ss[0], cs);
      } else {
        DeleteAllAbsent(ss[0], cs);
        assert Join([ss[0]] + DropSeparators(ss[1..], cs)) == ss[0] + Join(DropSeparators(ss[1..], cs)) by {
          assert ([ss[0]] + DropSeparators(ss[1..], cs))[1..] == DropSeparators(ss[1..], cs);
        }
      }
    }
  }

  /** Separators inserted into the written-out digits are removed again by the
      replace chain: what remains is the plain digit string. */
  lemma StripFormatted(ds: seq<int>, t: seq<(nat, string)>, cs: seq<char>)
    requires AllDecimal(ds)
    requires forall c :: c in cs ==> !IsDecimalChar(c)
    requires forall k :: 0 <= k < |t| ==> IsSeparator(t[k].1, cs)
    ensures DeleteAll(Join(InsertAll(MapStr(ds), t)), cs) == JoinStr(ds)
  {
    var m := MapStr(ds);
    assert forall k :: 0 <= k < |m| ==> m[k] == [DigitChar(ds[k])];
    InsertedEntries(m, t, cs);
    DeleteAllJoin(InsertAll(m, t), cs);
    DropInsertedSeparators(m, t, cs);
    DropNoSeparators(m, cs);
  }

  lemma {:induction false} DropNoSeparators(m: seq<string>, cs: seq<char>)
    requires forall k :: 0 <= k < |m| ==> |m[k]| == 1 && m[k][0] !in cs
    ensures DropSeparators(m, cs) == m
  {
    if m != [] {
      DropNoSeparators(m[1..], cs);
    }
  }

  /** Every entry of the inserted list is a separator or an entry of the original. */
  lemma {:induction false} InsertedEntries(m: seq<string>, t: seq<(nat, string)>, cs: seq<char>)
    requires forall k :: 0 <= k < |m| ==> forall c :: c in cs ==> c !in m[k]
    requires forall k :: 0 <= k < |t| ==> IsSeparator(t[k].1, cs)
    ensures forall k :: 0 <= k < |InsertAll(m, t)| ==>
      IsSeparator(InsertAll(m, t)[k], cs) || forall c :: c in cs ==> c !in InsertAll(m, t)[k]
    decreases |t|
  {
    if t != [] {
      InsertedEntries(m, t[..|t| - 1], cs);
    }
  }

  /** Zeros(n) reads back as n zeros. */
  lemma ZerosValue(n: nat)
    ensures IntList(Zeros(n)) == Success(seq(n, _ => 0))
  {
    var r := IntList(Zeros(n));
    assert r.Success?;
    assert r.value == seq(n, _ => 0);
  }

  lemma {:induction false} ZipSumFromZeros(xs: seq<int>, ws: seq<int>, i: nat)
    requires forall k :: 0 <= k < |xs| ==> xs[k] == 0
    ensures ZipSumFrom(xs, ws, i) == 0
    decreases |xs| - i
  {
    if i < |xs| && i < |ws| {
      ZipSumFromZeros(xs, ws, i + 1);
    }
  }

  /** A second insert k places after an earlier one splits what followed it. */
  lemma InsertAfterInserted<T>(a: seq<T>, x: T, b: seq<T>, k: nat, y: T)
    requires k <= |b|
    ensures Insert(a + [x] + b, |a| + 1 + k, y) == a + [x] + b[..k] + [y] + b[k..]
  {
    var s := a + [x] + b;
    assert s[..|a| + 1 + k] == a + [x] + b[..k];
    assert s[|a| + 1 + k..] == b[k..];
  }
}
