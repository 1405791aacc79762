/** Tax subtotals of a UBL invoice (services/einvoicing/ubl.go:134-143,186-210,230-237; model.go:151-175): amounts are
    kept as decimal strings and read back for every addition. */
module UblTotals {
  import opened PosLedger
  import opened TruncatedDivision
  import Attribution

  // ----- Amounts as strings -----

  function DigitOf(n: int): char
    requires 0 <= n <= 9
  {
    ('0' as int + n) as char
  }

  /** "%d.%02d" of a non-negative amount. */
  function Decimal(k: nat): string {
    Digits(k / 100) + "." + [DigitOf(k % 100 / 10), DigitOf(k % 10)]
  }

  function KoboToNgn(k: int): string {
    if k < 0 then "-" + Decimal(-k) else Decimal(k)
  }

  function DropDots(s: string): string {
    if s == "" then "" else (if s[0] == '.' then "" else [s[0]]) + DropDots(s[1..])
  }

  predicate IsDigit(c: char) {
    '0' <= c <= '9'
  }

  /** The longest run of digits in front, read on top of `n`. */
  function ReadDigits(s: string, n: nat): nat {
    if s == "" || !IsDigit(s[0]) then n else ReadDigits(s[1..], 10 * n + (s[0] as int - '0' as int))
  }

  /** A signed decimal number in front of the text, 0 when there is none. */
  function ReadInt(s: string): int {
    if s != "" && s[0] == '-' then 0 - ReadDigits(s[1..], 0)
    else if s != "" && s[0] == '+' then ReadDigits(s[1..], 0)
    else ReadDigits(s, 0)
  }

  function MustKobo(s: string): int {
    if s == "" then 0 else ReadInt(DropDots(s))
  }

  lemma {:induction false} DropDotsConcat(a: string, b: string)
    ensures DropDots(a + b) == DropDots(a) + DropDots(b)
  {
    if a == "" {
      assert a + b == b;
    } else {
      assert (a + b)[1..] == a[1..] + b;
      DropDotsConcat(a[1..], b);
    }
  }

  lemma {:induction false} NoDots(s: string)
    requires forall i :: 0 <= i < |s| ==> s[i] != '.'
    ensures DropDots(s) == s
  {
    if s != "" {
      NoDots(s[1..]);
    }
  }

  lemma {:induction false} ReadOneMore(s: string, n: nat, c: char)
    requires IsDigit(c) && forall i :: 0 <= i < |s| ==> IsDigit(s[i])
    ensures ReadDigits(s + [c], n) == 10 * ReadDigits(s, n) + (c as int - '0' as int)
  {
    if s == "" {
      assert s + [c] == [c] && [c][1..] == "";
    } else {
      assert (s + [c])[1..] == s[1..] + [c];
      ReadOneMore(s[1..], 10 * n + (s[0] as int - '0' as int), c);
    }
  }

  lemma {:induction false} ReadsBack(k: nat, n: nat)
    requires n == 0
    ensures Digits(k) != "" && (forall i :: 0 <= i < |Digits(k)| ==> IsDigit(Digits(k)[i]))
      && ReadDigits(Digits(k), n) == k
  {
    if k >= 10 {
      ReadsBack(k / 10, n);
      ReadOneMore(Digits(k / 10), n, DigitOf(k % 10));
    } else {
      ReadOneMore("", n, DigitOf(k));
      assert "" + [DigitOf(k)] == Digits(k);
    }
  }

  lemma DecimalDigits(k: nat)
    ensures DropDots(Decimal(k)) == Digits(k / 100) + [DigitOf(k % 100 / 10), DigitOf(k % 10)]
    ensures IsDigit(Decimal(k)[0]) && IsDigit(Digits(k / 100)[0])
  {
    var whole, fraction := Digits(k / 100), [DigitOf(k % 100 / 10), DigitOf(k % 10)];
    ReadsBack(k / 100, 0);
    NoDots(whole);
    NoDots(fraction);
    Point(".");
    DroppedPoint(whole, ".", fraction);
  }

  lemma DigitsRead(k: nat, whole: string, t: char, u: char)
    requires whole == Digits(k / 100) && t == DigitOf(k % 100 / 10) && u == DigitOf(k % 10)
    ensures ReadDigits(whole + [t, u], 0) == k
  {
    ReadsBack(k / 100, 0);
    ReadOneMore(whole, 0, t);
    ReadOneMore(whole + [t], 0, u);
    assert whole + [t, u] == whole + [t] + [u];
  }

  lemma DecimalReadsBack(k: nat)
    ensures IsDigit(Decimal(k)[0])
    ensures DropDots(Decimal(k)) != "" && IsDigit(DropDots(Decimal(k))[0]) && ReadDigits(DropDots(Decimal(k)), 0) == k
  {
    DecimalDigits(k);
    DigitsRead(k, Digits(k / 100), DigitOf(k % 100 / 10), DigitOf(k % 10));
  }

  lemma Point(point: string)
    requires |point| == 1 && point[0] == '.'
    ensures DropDots(point) == ""
  {
    assert point[1..] == "";
  }

  lemma DroppedPoint(whole: string, point: string, fraction: string)
    requires DropDots(whole) == whole && DropDots(fraction) == fraction && DropDots(point) == ""
    ensures DropDots(whole + point + fraction) == whole + fraction
  {
    calc {
      DropDots(whole + point + fraction);
      { DropDotsConcat(whole + point, fraction); }
      DropDots(whole + point) + fraction;
      { DropDotsConcat(whole, point); }
      whole + "" + fraction;
      whole + fraction;
    }
  }

  lemma SignKept(sign: char, d: string)
    requires sign != '.'
    ensures DropDots([sign] + d) == [sign] + DropDots(d)
  {
    assert ([sign] + d)[1..] == d;
  }

  lemma NegativeRead(x: string)
    ensures ReadInt(['-'] + x) == 0 - ReadDigits(x, 0)
  {
    assert (['-'] + x)[1..] == x;
  }

  /** Reading an amount back undoes printing it, for every integer. */
  lemma MustKoboReadsBack(k: int)
    ensures KoboToNgn(k) != "" && MustKobo(KoboToNgn(k)) == k
  {
    if k < 0 {
      DecimalReadsBack(-k);
      SignKept('-', Decimal(-k));
      NegativeRead(DropDots(Decimal(-k)));
    } else {
      DecimalReadsBack(k);
    }
  }

  // ----- Lines and groups -----

  datatype Line = Line(category: string, rateBps: int, quantityMilli: int, unitPrice: int, total: int, vat: int)

  datatype Group = Group(category: string, rateBps: int, taxable: string, tax: string)

  predicate Fits(g: Group, l: Line) {
    g.category == l.category && g.rateBps == l.rateBps
  }

  /** The position of the line's group, or the length. */
  function Position(groups: seq<Group>, l: Line): (i: nat)
    ensures i <= |groups| && (i < |groups| ==> Fits(groups[i], l)) && forall j :: 0 <= j < i ==> !Fits(groups[j], l)
  {
    if groups == [] || Fits(groups[0], l) then 0 else 1 + Position(groups[1..], l)
  }

  function AddTo(g: Group, l: Line): Group {
    g.(taxable := KoboToNgn(MustKobo(g.taxable) + l.total), tax := KoboToNgn(MustKobo(g.tax) + l.vat))
  }

  function AddLine(groups: seq<Group>, l: Line): seq<Group> {
    var i := Position(groups, l);
    if i < |groups| then groups[i := AddTo(groups[i], l)]
    else groups + [AddTo(Group(l.category, l.rateBps, "", ""), l)]
  }

  /** The first line of each category and rate, in order. */
  function FirstSeen(lines: seq<Line>): seq<(string, int)> {
    if lines == [] then []
    else
      var before, l := FirstSeen(lines[..|lines| - 1]), lines[|lines| - 1];
      if (l.category, l.rateBps) in before then before else before + [(l.category, l.rateBps)]
  }

  function TaxableOf(lines: seq<Line>, category: string, rateBps: int): int {
    if lines == [] then 0
    else
      var l := lines[|lines| - 1];
      TaxableOf(lines[..|lines| - 1], category, rateBps)
      + if l.category == category && l.rateBps == rateBps then l.total else 0
  }

  function TaxOf(lines: seq<Line>, category: string, rateBps: int): int {
    if lines == [] then 0
    else
      var l := lines[|lines| - 1];
      TaxOf(lines[..|lines| - 1], category, rateBps)
      + if l.category == category && l.rateBps == rateBps then l.vat else 0
  }

  function Keys(groups: seq<Group>): seq<(string, int)> {
    seq(|groups|, i requires 0 <= i < |groups| => (groups[i].category, groups[i].rateBps))
  }

  ghost predicate GroupExact(g: Group, lines: seq<Line>) {
    && g.taxable == KoboToNgn(TaxableOf(lines, g.category, g.rateBps))
    && g.tax == KoboToNgn(TaxOf(lines, g.category, g.rateBps))
  }

  /** One group per category and rate, in first-seen order, holding the sums of its lines. */
  ghost predicate Exact(groups: seq<Group>, lines: seq<Line>) {
    && Keys(groups) == FirstSeen(lines)
    && (forall i, j :: 0 <= i < j < |groups| ==>
          (groups[i].category, groups[i].rateBps) != (groups[j].category, groups[j].rateBps))
    && forall i :: 0 <= i < |groups| ==> GroupExact(groups[i], lines)
  }

  lemma {:induction false} UnseenIsZero(lines: seq<Line>, category: string, rateBps: int)
    requires (category, rateBps) !in FirstSeen(lines)
    ensures TaxableOf(lines, category, rateBps) == 0 && TaxOf(lines, category, rateBps) == 0
    decreases |lines|
  {
    if lines != [] {
      UnseenIsZero(lines[..|lines| - 1], category, rateBps);
    }
  }

  lemma NextSums(lines: seq<Line>, l: Line, category: string, rateBps: int)
    ensures var more := l.category == category && l.rateBps == rateBps;
      && TaxableOf(lines + [l], category, rateBps)
           == TaxableOf(lines, category, rateBps) + (if more then l.total else 0)
      && TaxOf(lines + [l], category, rateBps) == TaxOf(lines, category, rateBps) + (if more then l.vat else 0)
  {
    assert (lines + [l])[..|lines|] == lines;
  }

  lemma NextFirstSeen(lines: seq<Line>, l: Line)
    ensures FirstSeen(lines + [l]) == if (l.category, l.rateBps) in FirstSeen(lines) then FirstSeen(lines)
                                      else FirstSeen(lines) + [(l.category, l.rateBps)]
  {
    assert (lines + [l])[..|lines|] == lines;
  }

  lemma AddToExact(g: Group, lines: seq<Line>, l: Line)
    requires GroupExact(g, lines) && Fits(g, l)
    ensures GroupExact(AddTo(g, l), lines + [l])
  {
    MustKoboReadsBack(TaxableOf(lines, g.category, g.rateBps));
    MustKoboReadsBack(TaxOf(lines, g.category, g.rateBps));
    NextSums(lines, l, g.category, g.rateBps);
  }

  lemma OtherExact(g: Group, lines: seq<Line>, l: Line)
    requires GroupExact(g, lines) && !Fits(g, l)
    ensures GroupExact(g, lines + [l])
  {
    NextSums(lines, l, g.category, g.rateBps);
  }

  lemma NewExact(lines: seq<Line>, l: Line)
    requires (l.category, l.rateBps) !in FirstSeen(lines)
    ensures GroupExact(AddTo(Group(l.category, l.rateBps, "", ""), l), lines + [l])
  {
    UnseenIsZero(lines, l.category, l.rateBps);
    NextSums(lines, l, l.category, l.rateBps);
  }

  /** Replacing a group by one of the same key, or appending one. */
  lemma TouchedKeys(groups: seq<Group>, at: nat, g: Group)
    requires at <= |groups| && (at < |groups| ==> g.category == groups[at].category && g.rateBps == groups[at].rateBps)
    ensures at < |groups| ==> Keys(groups[at := g]) == Keys(groups)
    ensures Keys(groups + [g]) == Keys(groups) + [(g.category, g.rateBps)]
  {
  }

  lemma PositionByKey(groups: seq<Group>, l: Line)
    ensures Position(groups, l) < |groups| <==> (l.category, l.rateBps) in Keys(groups)
  {
    var keys := Keys(groups);
    assert forall i :: 0 <= i < |groups| ==> (keys[i] == (l.category, l.rateBps) <==> Fits(groups[i], l));
  }

  lemma AddLineKeys(groups: seq<Group>, lines: seq<Line>, l: Line)
    requires Keys(groups) == FirstSeen(lines)
    ensures Keys(AddLine(groups, l)) == FirstSeen(lines + [l])
    ensures Position(groups, l) == |groups| ==> (l.category, l.rateBps) !in FirstSeen(lines)
  {
    var at := Position(groups, l);
    PositionByKey(groups, l);
    NextFirstSeen(lines, l);
    TouchedKeys(groups, at, AddTo(if at < |groups| then groups[at] else Group(l.category, l.rateBps, "", ""), l));
  }

  /** Adding a line touches one group: what `p` says before and `q` after. */
  lemma AddLineTouches(groups: seq<Group>, l: Line, p: Group -> bool, q: Group -> bool)
    requires forall i :: 0 <= i < |groups| ==> p(groups[i])
    requires forall g :: p(g) && Fits(g, l) ==> q(AddTo(g, l))
    requires forall g {:trigger q(g)} :: p(g) && !Fits(g, l) ==> q(g)
    requires Position(groups, l) == |groups| ==> q(AddTo(Group(l.category, l.rateBps, "", ""), l))
    requires forall i, j :: 0 <= i < j < |groups| ==>
      (groups[i].category, groups[i].rateBps) != (groups[j].category, groups[j].rateBps)
    ensures forall i :: 0 <= i < |AddLine(groups, l)| ==> q(AddLine(groups, l)[i])
  {
  }

  lemma AddLineSums(groups: seq<Group>, lines: seq<Line>, l: Line)
    requires forall i :: 0 <= i < |groups| ==> GroupExact(groups[i], lines)
    requires Position(groups, l) == |groups| ==> (l.category, l.rateBps) !in FirstSeen(lines)
    requires forall i, j :: 0 <= i < j < |groups| ==>
      (groups[i].category, groups[i].rateBps) != (groups[j].category, groups[j].rateBps)
    ensures forall i :: 0 <= i < |AddLine(groups, l)| ==> GroupExact(AddLine(groups, l)[i], lines + [l])
  {
    forall g | GroupExact(g, lines) && Fits(g, l)
      ensures GroupExact(AddTo(g, l), lines + [l])
    {
      AddToExact(g, lines, l);
    }
    forall g | GroupExact(g, lines) && !Fits(g, l)
      ensures GroupExact(g, lines + [l])
    {
      OtherExact(g, lines, l);
    }
    if Position(groups, l) == |groups| {
      NewExact(lines, l);
    }
    AddLineTouches(groups, l, g => GroupExact(g, lines), g => GroupExact(g, lines + [l]));
  }

  function GroupsOf(lines: seq<Line>): seq<Group> {
    if lines == [] then [] else AddLine(GroupsOf(lines[..|lines| - 1]), lines[|lines| - 1])
  }

  lemma {:induction false} KeysApart(groups: seq<Group>)
    requires Distinct(Keys(groups))
    ensures forall i, j :: 0 <= i < j < |groups| ==>
      (groups[i].category, groups[i].rateBps) != (groups[j].category, groups[j].rateBps)
  {
    var keys := Keys(groups);
    assert forall i :: 0 <= i < |groups| ==> keys[i] == (groups[i].category, groups[i].rateBps);
  }

  lemma {:induction false} GroupsExact(lines: seq<Line>)
    ensures Exact(GroupsOf(lines), lines)
    decreases |lines|
  {
    FirstSeenDistinct(lines);
    if lines != [] {
      var front, l := lines[..|lines| - 1], lines[|lines| - 1];
      assert lines == front + [l];
      GroupsExact(front);
      AddLineKeys(GroupsOf(front), front, l);
      AddLineSums(GroupsOf(front), front, l);
      KeysApart(GroupsOf(lines));
    }
  }

  method Locate(groups: seq<Group>, l: Line) returns (i: nat)
    ensures i == Position(groups, l)
  {
    i := 0;
    while i < |groups| && !Fits(groups[i], l)
      invariant 0 <= i <= |groups| && forall j :: 0 <= j < i ==> !Fits(groups[j], l)
    {
      i := i + 1;
    }
  }

  method AddOne(groups: seq<Group>, l: Line) returns (groups': seq<Group>)
    ensures groups' == AddLine(groups, l)
  {
    var i := Locate(groups, l);
    if i == |groups| {
      groups' := groups + [AddTo(Group(l.category, l.rateBps, "", ""), l)];
    } else {
      groups' := groups[i := AddTo(groups[i], l)];
    }
  }

  /** The grouping loop. */
  method Subtotals(lines: seq<Line>) returns (groups: seq<Group>)
    ensures Exact(groups, lines)
  {
    groups := [];
    var n := 0;
    while n < |lines|
      invariant 0 <= n <= |lines| && groups == GroupsOf(lines[..n])
    {
      var l := lines[n];
      assert lines[..n + 1][..n] == lines[..n];
      groups := AddOne(groups, l);
      n := n + 1;
    }
    assert lines[..n] == lines;
    GroupsExact(lines);
  }

  // ----- Document totals -----

  function TaxSum(lines: seq<Line>): int {
    if lines == [] then 0 else TaxSum(lines[..|lines| - 1]) + lines[|lines| - 1].vat
  }

  function TotalSum(lines: seq<Line>): int {
    if lines == [] then 0 else TotalSum(lines[..|lines| - 1]) + lines[|lines| - 1].total
  }

  function GroupTax(groups: seq<Group>): int {
    if groups == [] then 0 else GroupTax(groups[..|groups| - 1]) + MustKobo(groups[|groups| - 1].tax)
  }

  function KeyTax(keys: seq<(string, int)>, lines: seq<Line>): int {
    if keys == [] then 0
    else KeyTax(keys[..|keys| - 1], lines) + TaxOf(lines, keys[|keys| - 1].0, keys[|keys| - 1].1)
  }

  lemma {:induction false} GroupTaxByKeys(groups: seq<Group>, lines: seq<Line>)
    requires forall i :: 0 <= i < |groups| ==> GroupExact(groups[i], lines)
    ensures GroupTax(groups) == KeyTax(Keys(groups), lines)
  {
    if groups != [] {
      var front, g := groups[..|groups| - 1], groups[|groups| - 1];
      GroupTaxByKeys(front, lines);
      assert Keys(groups)[..|groups| - 1] == Keys(front);
      MustKoboReadsBack(TaxOf(lines, g.category, g.rateBps));
    }
  }

  predicate Distinct(keys: seq<(string, int)>) {
    forall i, j :: 0 <= i < j < |keys| ==> keys[i] != keys[j]
  }

  /** One more line adds its tax to exactly one key. */
  lemma {:induction false} KeyTaxNext(keys: seq<(string, int)>, lines: seq<Line>, l: Line)
    requires Distinct(keys)
    ensures KeyTax(keys, lines + [l]) == KeyTax(keys, lines) + if (l.category, l.rateBps) in keys then l.vat else 0
  {
    if keys != [] {
      var front, k := keys[..|keys| - 1], keys[|keys| - 1];
      KeyTaxNext(front, lines, l);
      NextSums(lines, l, k.0, k.1);
      assert keys == front + [k];
    }
  }

  lemma {:induction false} FirstSeenDistinct(lines: seq<Line>)
    ensures Distinct(FirstSeen(lines))
  {
    if lines != [] {
      FirstSeenDistinct(lines[..|lines| - 1]);
    }
  }

  lemma NewKeyTax(keys: seq<(string, int)>, lines: seq<Line>, l: Line)
    requires (l.category, l.rateBps) !in FirstSeen(lines)
    ensures KeyTax(keys + [(l.category, l.rateBps)], lines + [l]) == KeyTax(keys, lines + [l]) + l.vat
  {
    var more := keys + [(l.category, l.rateBps)];
    assert more[..|more| - 1] == keys;
    UnseenIsZero(lines, l.category, l.rateBps);
    NextSums(lines, l, l.category, l.rateBps);
  }

  lemma NextPartition(lines: seq<Line>, l: Line)
    ensures KeyTax(FirstSeen(lines + [l]), lines + [l]) == KeyTax(FirstSeen(lines), lines) + l.vat
  {
    FirstSeenDistinct(lines);
    NextFirstSeen(lines, l);
    KeyTaxNext(FirstSeen(lines), lines, l);
    if (l.category, l.rateBps) !in FirstSeen(lines) {
      NewKeyTax(FirstSeen(lines), lines, l);
    }
  }

  lemma {:induction false} KeysPartition(lines: seq<Line>)
    ensures KeyTax(FirstSeen(lines), lines) == TaxSum(lines)
  {
    if lines != [] {
      var front, l := lines[..|lines| - 1], lines[|lines| - 1];
      KeysPartition(front);
      assert lines == front + [l];
      NextPartition(front, l);
    }
  }

  /** The groups partition the lines: their tax amounts, read back, add up to the lines' VAT. */
  lemma SubtotalsAddUp(groups: seq<Group>, lines: seq<Line>)
    requires Exact(groups, lines)
    ensures GroupTax(groups) == TaxSum(lines)
  {
    GroupTaxByKeys(groups, lines);
    KeysPartition(lines);
  }

  function NormalLine(l: Line): Line {
    var category := if l.category == "" then "S" else l.category;
    var rate := if category == "S" && l.rateBps == 0 then 750 else l.rateBps;
    var total :=
      if l.total == 0 && l.quantityMilli != 0 then Quotient(l.quantityMilli * l.unitPrice, 1000) else l.total;
    l.(category := category, rateBps := rate, total := total, vat := Attribution.RoundBpsHalfUp(total, rate))
  }

  function NormalLines(given: seq<Line>): seq<Line> {
    if given == [] then [] else NormalLines(given[..|given| - 1]) + [NormalLine(given[|given| - 1])]
  }

  lemma SumsNext(lines: seq<Line>, l: Line)
    ensures TotalSum(lines + [l]) == TotalSum(lines) + l.total && TaxSum(lines + [l]) == TaxSum(lines) + l.vat
  {
    assert (lines + [l])[..|lines|] == lines;
  }

  lemma SumsOfNone()
    ensures TotalSum([]) == 0 && TaxSum([]) == 0
  {
  }

  /** Normalisation of the lines and the document sums: given sums other than zero are kept. */
  method Normalise(given: seq<Line>, givenExclusive: int, givenTax: int, givenPayable: int)
    returns (lines: seq<Line>, exclusive: int, tax: int, payable: int)
    ensures lines == NormalLines(given)
    ensures exclusive == (if givenExclusive == 0 then TotalSum(lines) else givenExclusive)
    ensures tax == (if givenTax == 0 then TaxSum(lines) else givenTax)
    ensures payable == (if givenPayable == 0 then exclusive + tax else givenPayable)
  {
    hide Quotient, Attribution.RoundBpsHalfUp, TotalSum, TaxSum;
    SumsOfNone();
    lines := [];
    var excl, vat := 0, 0;
    for i := 0 to |given|
      invariant lines == NormalLines(given[..i])
      invariant excl == TotalSum(lines) && vat == TaxSum(lines)
    {
      var l := given[i];
      if l.category == "" {
        l := l.(category := "S");
      }
      if l.category == "S" && l.rateBps == 0 {
        l := l.(rateBps := 750);
      }
      if l.total == 0 && l.quantityMilli != 0 {
        l := l.(total := Quotient(l.quantityMilli * l.unitPrice, 1000));
      }
      l := l.(vat := Attribution.RoundBpsHalfUp(l.total, l.rateBps));
      assert l == NormalLine(given[i]);
      assert given[..i + 1][..i] == given[..i];
      SumsNext(lines, l);
      lines := lines + [l];
      excl, vat := excl + l.total, vat + l.vat;
    }
    assert given[..|given|] == given;
    exclusive := if givenExclusive == 0 then excl else givenExclusive;
    tax := if givenTax == 0 then vat else givenTax;
    payable := if givenPayable == 0 then exclusive + tax else givenPayable;
  }

  /** Rule BR-CO-14 of EN 16931, the document tax is the sum of the subtotals: it holds if and only if the tax was left
      for normalisation to compute or was given right. */
  lemma TaxEqualsSubtotals(groups: seq<Group>, lines: seq<Line>, givenTax: int, tax: int)
    requires Exact(groups, lines) && tax == if givenTax == 0 then TaxSum(lines) else givenTax
    ensures GroupTax(groups) == tax <==> givenTax == 0 || givenTax == TaxSum(lines)
  {
    SubtotalsAddUp(groups, lines);
  }

  // ----- What is printed and what is filled in -----

  /** An amount prints as a whole number of naira, a point, and exactly two digits of kobo, with a sign in front of a
      negative one. */
  lemma PrintsTwoDecimals(k: nat)
    ensures var s := KoboToNgn(k);
      && |s| >= 4 && s[|s| - 3] == '.' && (forall i :: 0 <= i < |s| && i != |s| - 3 ==> IsDigit(s[i]))
      && ReadDigits(s[..|s| - 3], 0) == k / 100 && ReadDigits(s[|s| - 2..], 0) == k % 100
    ensures k > 0 ==> KoboToNgn(0 - k) == ['-'] + KoboToNgn(k)
  {
    var whole, t, u := Digits(k / 100), DigitOf(k % 100 / 10), DigitOf(k % 10);
    hide Digits, ReadDigits;
    ReadsBack(k / 100, 0);
    assert k % 100 % 10 == k % 10;
    TwoDigitsRead(k % 100);
    var s := KoboToNgn(k);
    hide DigitOf;
    assert s[..|s| - 3] == whole && s[|s| - 2..] == [t, u];
  }

  lemma TwoDigitsRead(n: nat)
    requires n < 100
    ensures var t, u := DigitOf(n / 10), DigitOf(n % 10);
      IsDigit(t) && IsDigit(u) && ReadDigits([t, u], 0) == n
  {
    var t, u := DigitOf(n / 10), DigitOf(n % 10);
    assert "" + [t] == [t] && [t] + [u] == [t, u];
    ReadOneMore("", 0, t);
    ReadOneMore([t], 0, u);
  }

  /** A line without a category is standard-rated, a standard-rated one without a rate is at 7.5%, and one without a
      total gets quantity times unit price, rounded towards zero; its VAT is the rate on the total, to the nearest
      kobo. */
  lemma NormalLineFigures(l: Line)
    requires l.rateBps >= 0
    ensures var n := NormalLine(l);
      && (l.category != "" ==> n.category == l.category) && (l.category == "" ==> n.category == "S")
      && (if n.category == "S" && l.rateBps == 0 then n.rateBps == 750 else n.rateBps == l.rateBps)
      && (l.total != 0 || l.quantityMilli == 0 ==> n.total == l.total)
      && (l.total == 0 && l.quantityMilli * l.unitPrice >= 0 ==>
            1000 * n.total <= l.quantityMilli * l.unitPrice < 1000 * (n.total + 1))
      && (if n.total >= 0 then Attribution.Nearest(n.vat, n.total * n.rateBps)
          else -5000 <= 10000 * n.vat - n.total * n.rateBps < 5000)
  {
    var n := NormalLine(l);
    QuotientTruncates(l.quantityMilli * l.unitPrice, 1000);
    Attribution.RoundsToNearest(n.total, n.rateBps, n.vat);
  }
}
