/** The invoice reference number (services/einvoicing/nrs_irn.go): IRN = number-serviceId-YYYYMMDD, printed by
    `BuildIrn` and split on its last two hyphens by `ParseIrn`. */
module IrnFormat {

  datatype Result<T> = Ok(value: T) | Err

  datatype IrnParts = IrnParts(number: string, serviceId: string, dateStamp: string)

  // ----- String functions of the host language -----

  predicate IsSpace(c: char) {
    || '\t' <= c <= '\r' || c == ' ' || c == '\U{85}' || c == '\U{A0}' || c == '\U{1680}'
    || '\U{2000}' <= c <= '\U{200A}' || c == '\U{2028}' || c == '\U{2029}' || c == '\U{202F}'
    || c == '\U{205F}' || c == '\U{3000}'
  }

  predicate IsTrimmed(s: string) {
    s == [] || (!IsSpace(s[0]) && !IsSpace(s[|s| - 1]))
  }

  /** The string without leading and trailing white space. */
  function TrimSpace(s: string): (t: string)
    ensures IsTrimmed(t)
    ensures IsTrimmed(s) ==> t == s
  {
    if s != [] && IsSpace(s[0]) then TrimSpace(s[1..])
    else if s != [] && IsSpace(s[|s| - 1]) then TrimSpace(s[..|s| - 1])
    else s
  }

  /** The index of the last `c`, or -1. */
  function LastIndex(s: string, c: char): (i: int)
    ensures -1 <= i < |s|
    ensures i >= 0 ==> s[i] == c
    ensures forall k :: i < k < |s| ==> s[k] != c
  {
    if s == [] then -1
    else if s[|s| - 1] == c then |s| - 1
    else LastIndex(s[..|s| - 1], c)
  }

  function RemoveHyphens(s: string): (t: string)
    ensures '-' !in t
    ensures '-' !in s ==> t == s
  {
    if s == [] then []
    else if s[0] == '-' then RemoveHyphens(s[1..])
    else
      assert s == [s[0]] + s[1..];
      [s[0]] + RemoveHyphens(s[1..])
  }

  predicate IsDigit(c: char) {
    '0' <= c <= '9'
  }

  predicate IsAlphanumeric(c: char) {
    IsDigit(c) || 'A' <= c <= 'Z' || 'a' <= c <= 'z'
  }

  // ----- Calendar dates -----

  function Digit(c: char): nat {
    if IsDigit(c) then (c - '0') as int else 0
  }

  function Number(s: string): nat {
    if s == [] then 0 else 10 * Number(s[..|s| - 1]) + Digit(s[|s| - 1])
  }

  predicate IsLeap(y: nat) {
    y % 4 == 0 && (y % 100 != 0 || y % 400 == 0)
  }

  function DaysIn(m: nat, y: nat): nat {
    if m == 2 then (if IsLeap(y) then 29 else 28)
    else if m in {4, 6, 9, 11} then 30
    else 31
  }

  /** Eight digits that name a day of the calendar. */
  predicate IsDate(d: string) {
    && |d| == 8
    && (forall i :: 0 <= i < 8 ==> IsDigit(d[i]))
    && 1 <= Number(d[4..6]) <= 12
    && 1 <= Number(d[6..]) <= DaysIn(Number(d[4..6]), Number(d[..4]))
  }

  /** The date as YYYYMMDD, with hyphens and surrounding space dropped. */
  function DateStamp(issueDate: string): (r: Result<string>)
    ensures r.Ok? ==> IsDate(r.value)
  {
    var d := TrimSpace(RemoveHyphens(issueDate));
    if IsDate(d) then Ok(d) else Err
  }

  // ----- Print and parse -----

  predicate ValidServiceId(s: string) {
    |s| == 8 && forall i :: 0 <= i < 8 ==> IsAlphanumeric(s[i])
  }

  function BuildIrn(number: string, serviceId: string, issueDate: string): Result<string> {
    var n := TrimSpace(number);
    if n == "" || !ValidServiceId(serviceId) || DateStamp(issueDate).Err? then Err
    else Ok(n + "-" + serviceId + "-" + DateStamp(issueDate).value)
  }

  /** Split at the last hyphen into a nonempty head and a nonempty tail. */
  function SplitLast(s: string): (r: Result<(string, string)>)
    ensures r.Ok? ==> s == r.value.0 + "-" + r.value.1 && r.value.0 != "" && r.value.1 != "" && '-' !in r.value.1
  {
    var i := LastIndex(s, '-');
    if i <= 0 || i == |s| - 1 then Err
    else
      assert s == s[..i] + "-" + s[i + 1..];
      Ok((s[..i], s[i + 1..]))
  }

  function ParseIrn(irn: string): Result<IrnParts> {
    var s := TrimSpace(irn);
    if SplitLast(s).Err? then Err
    else
      var (rest, dateStamp) := SplitLast(s).value;
      if SplitLast(rest).Err? then Err
      else
        var (number, serviceId) := SplitLast(rest).value;
        if !ValidServiceId(serviceId) || DateStamp(dateStamp).Err? then Err
        else Ok(IrnParts(number, serviceId, dateStamp))
  }

  lemma SplitLastAppend(head: string, tail: string)
    requires head != "" && tail != "" && '-' !in tail
    ensures SplitLast(head + "-" + tail) == Ok((head, tail))
  {
    var s := head + "-" + tail;
    var i := LastIndex(s, '-');
    assert s[|head|] == '-';
    assert forall k :: |head| < k < |s| ==> s[k] == tail[k - |head| - 1];
    assert i == |head| && s[..i] == head && s[i + 1..] == tail;
  }

  lemma DateHasNoHyphen(d: string)
    requires IsDate(d)
    ensures '-' !in d && IsTrimmed(d) && DateStamp(d) == Ok(d)
  {
  }

  lemma {:induction false} RemoveHyphensConcat(a: string, b: string)
    ensures RemoveHyphens(a + b) == RemoveHyphens(a) + RemoveHyphens(b)
  {
    if a == "" {
      assert a + b == b;
    } else {
      assert (a + b)[1..] == a[1..] + b;
      RemoveHyphensConcat(a[1..], b);
    }
  }

  lemma JustHyphen(hyphen: string)
    requires |hyphen| == 1 && hyphen[0] == '-'
    ensures RemoveHyphens(hyphen) == ""
  {
    assert hyphen[1..] == "";
  }

  lemma HyphenBetween(a: string, hyphen: string, b: string)
    requires RemoveHyphens(hyphen) == "" && RemoveHyphens(b) == b
    ensures RemoveHyphens(a + hyphen + b) == RemoveHyphens(a) + b
  {
    calc {
      RemoveHyphens(a + hyphen + b);
      { RemoveHyphensConcat(a + hyphen, b); }
      RemoveHyphens(a + hyphen) + b;
      { RemoveHyphensConcat(a, hyphen); }
      RemoveHyphens(a) + b;
    }
  }

  /** A calendar date is accepted with hyphens between its parts as without, and gives the same stamp. */
  lemma DateStampAccepts(y: string, m: string, d: string)
    requires IsDate(y + m + d) && '-' !in y && '-' !in m && '-' !in d
    ensures DateStamp(y + m + d) == Ok(y + m + d) && DateStamp(y + "-" + m + "-" + d) == Ok(y + m + d)
  {
    DateHasNoHyphen(y + m + d);
    JustHyphen("-");
    HyphenBetween(y + "-" + m, "-", d);
    HyphenBetween(y, "-", m);
  }

  /** Parsing undoes printing, hyphens in the invoice number included. */
  lemma ParseBuild(number: string, serviceId: string, issueDate: string)
    requires BuildIrn(number, serviceId, issueDate).Ok?
    ensures ParseIrn(BuildIrn(number, serviceId, issueDate).value)
         == Ok(IrnParts(TrimSpace(number), serviceId, DateStamp(issueDate).value))
  {
    var n, d := TrimSpace(number), DateStamp(issueDate).value;
    DateHasNoHyphen(d);
    var rest := n + "-" + serviceId;
    var irn := rest + "-" + d;
    assert irn[0] == n[0] && irn[|irn| - 1] == d[|d| - 1];
    assert IsTrimmed(irn);
    assert '-' !in serviceId;
    SplitLastAppend(rest, d);
    SplitLastAppend(n, serviceId);
  }

  /** Different numbers, service ids or dates give different reference numbers. */
  lemma BuildInjective(n: string, s: string, d: string, n': string, s': string, d': string)
    requires BuildIrn(n, s, d).Ok? && BuildIrn(n, s, d) == BuildIrn(n', s', d')
    ensures TrimSpace(n) == TrimSpace(n') && s == s' && DateStamp(d) == DateStamp(d')
  {
    ParseBuild(n, s, d);
    ParseBuild(n', s', d');
  }

  /** What parses is the three parts joined; printing them gives it back exactly when the number and the
      stamp carry no white space at their ends, which the parser does not insist on. */
  lemma BuildParse(irn: string)
    requires ParseIrn(irn).Ok?
    ensures var p := ParseIrn(irn).value;
      && TrimSpace(irn) == p.number + "-" + p.serviceId + "-" + p.dateStamp
      && (BuildIrn(p.number, p.serviceId, p.dateStamp) == Ok(TrimSpace(irn))
          <==> IsTrimmed(p.number) && IsTrimmed(p.dateStamp))
  {
    var p := ParseIrn(irn).value;
    var s := TrimSpace(irn);
    var (rest, ds) := SplitLast(s).value;
    assert s == p.number + "-" + p.serviceId + "-" + p.dateStamp;
    var d := DateStamp(p.dateStamp).value;
    assert d == TrimSpace(p.dateStamp);
    if BuildIrn(p.number, p.serviceId, p.dateStamp) == Ok(s) {
      ParseBuild(p.number, p.serviceId, p.dateStamp);
      assert ParseIrn(s) == ParseIrn(irn);
    }
    if IsTrimmed(p.number) && IsTrimmed(p.dateStamp) {
      assert TrimSpace(p.number) == p.number != "";
    }
  }

  /** Such white space does get through: a space before the stamp parses, and stays in the parts. */
  lemma SpacedStampParses(number: string, serviceId: string, d: string)
    requires number != "" && IsTrimmed(number) && ValidServiceId(serviceId) && IsDate(d)
    ensures ParseIrn(number + "-" + serviceId + "-" + (" " + d)) == Ok(IrnParts(number, serviceId, " " + d))
    ensures BuildIrn(number, serviceId, " " + d) == Ok(number + "-" + serviceId + "-" + d)
  {
    var rest := number + "-" + serviceId;
    var irn := rest + "-" + (" " + d);
    DateHasNoHyphen(d);
    assert (" " + d)[1..] == d && '-' !in " " + d;
    assert irn[0] == number[0] && irn[|irn| - 1] == d[|d| - 1];
    assert IsTrimmed(irn);
    assert '-' !in serviceId;
    SplitLastAppend(rest, " " + d);
    SplitLastAppend(number, serviceId);
  }

  // ----- What is accepted -----

  /** Trimming removes white space at both ends and nothing else. */
  lemma {:induction false} TrimRemovesSpace(s: string) returns (front: string, back: string)
    ensures s == front + TrimSpace(s) + back
    ensures (forall i :: 0 <= i < |front| ==> IsSpace(front[i])) && forall i :: 0 <= i < |back| ==> IsSpace(back[i])
    decreases |s|
  {
    hide IsSpace;
    if s != [] && IsSpace(s[0]) {
      var rest;
      rest, back := TrimRemovesSpace(s[1..]);
      front := [s[0]] + rest;
      assert s == [s[0]] + s[1..];
    } else if s != [] && IsSpace(s[|s| - 1]) {
      var rest;
      front, rest := TrimRemovesSpace(s[..|s| - 1]);
      back := rest + [s[|s| - 1]];
      assert s == s[..|s| - 1] + [s[|s| - 1]];
    } else {
      front, back := "", "";
    }
  }

  /** A number can be built exactly from a non-blank invoice number, a service id of eight ASCII letters or digits,
      and a date that stamps. */
  lemma BuildAccepts(number: string, serviceId: string, issueDate: string)
    ensures BuildIrn(number, serviceId, issueDate).Ok? <==>
      && (exists i :: 0 <= i < |number| && !IsSpace(number[i]))
      && |serviceId| == 8
      && (forall i :: 0 <= i < 8 ==>
            '0' <= serviceId[i] <= '9' || 'A' <= serviceId[i] <= 'Z' || 'a' <= serviceId[i] <= 'z')
      && DateStamp(issueDate).Ok?
  {
    var front, back := TrimRemovesSpace(number);
    var t := TrimSpace(number);
    if t == "" {
      forall i | 0 <= i < |number|
        ensures IsSpace(number[i])
      {
        assert number == front + back;
      }
    } else {
      assert number[|front|] == t[0];
    }
  }

  // ----- The calendar -----

  function Char(n: nat): char
    requires n < 10
  {
    ('0' as int + n) as char
  }

  function TwoDigits(n: nat): string
    requires n < 100
  {
    [Char(n / 10), Char(n % 10)]
  }

  function FourDigits(n: nat): string
    requires n < 10000
  {
    TwoDigits(n / 100) + TwoDigits(n % 100)
  }

  lemma NumberNext(s: string, n: nat)
    requires n < 10
    ensures Number(s + [Char(n)]) == 10 * Number(s) + n
  {
    assert (s + [Char(n)])[..|s|] == s;
  }

  lemma ReadsTwo(s: string, n: nat)
    requires n < 100
    ensures Number(s + TwoDigits(n)) == 100 * Number(s) + n
  {
    assert s + TwoDigits(n) == s + [Char(n / 10)] + [Char(n % 10)];
    NumberNext(s, n / 10);
    NumberNext(s + [Char(n / 10)], n % 10);
  }

  /** Year, month and day in eight digits are a date exactly when the calendar has that day: months of 30 and 31 days,
      and a February of 29 in years divisible by 4, but not by 100 unless by 400. */
  lemma DateExists(y: nat, m: nat, d: nat)
    requires y < 10000 && m < 100 && d < 100
    ensures IsDate(FourDigits(y) + TwoDigits(m) + TwoDigits(d)) <==>
      || (m in {1, 3, 5, 7, 8, 10, 12} && 1 <= d <= 31)
      || (m in {4, 6, 9, 11} && 1 <= d <= 30)
      || (m == 2 && 1 <= d <= 28)
      || (m == 2 && d == 29 && (y % 400 == 0 || (y % 4 == 0 && y % 100 != 0)))
  {
    DateReads(y, m, d);
    hide Number, FourDigits, TwoDigits;
  }

  lemma DateReads(y: nat, m: nat, d: nat)
    requires y < 10000 && m < 100 && d < 100
    ensures var s := FourDigits(y) + TwoDigits(m) + TwoDigits(d);
      && |s| == 8 && (forall i :: 0 <= i < 8 ==> IsDigit(s[i]))
      && Number(s[..4]) == y && Number(s[4..6]) == m && Number(s[6..]) == d
  {
    var a, b, c, e := TwoDigits(y / 100), TwoDigits(y % 100), TwoDigits(m), TwoDigits(d);
    var s := FourDigits(y) + c + e;
    assert s == a + b + c + e && s[..4] == a + b && s[4..6] == c && s[6..] == e;
    ReadsPair(y / 100);
    ReadsPair(m);
    ReadsPair(d);
    ReadsTwo(a, y % 100);
  }

  lemma ReadsPair(n: nat)
    requires n < 100
    ensures Number(TwoDigits(n)) == n
  {
    assert "" + TwoDigits(n) == TwoDigits(n);
    ReadsTwo("", n);
  }
}
