/** The texts that settlement ids are hashed from (services/pos-vat/handlers.go:359-365) and the key of a settlement
    marker (services/pos-vat/store.go:307). They are plain concatenations, so tenant and
    period enter them only as the text they join to. */
module TransferNames {
  import opened PosLedger
  import opened LedgerInvariants

  datatype LegName = Federal | State | Lga

  function Text(leg: LegName): string {
    match leg
    case Federal => "federal"
    case State => "state"
    case Lga => "lga"
  }

  function Suffix(supp: nat): string {
    if supp == 0 then "" else ":supp:" + Digits(supp)
  }

  /** Tenant and period as they enter a name. */
  function Joined(tenant: string, period: string): string {
    tenant + ":" + period
  }

  function Tail(joined: string, leg: LegName, supp: nat): string {
    joined + ":" + Text(leg) + Suffix(supp)
  }

  function PendingName(tenant: string, period: string, leg: LegName, supp: nat): string {
    "posv-pend:" + Tail(Joined(tenant, period), leg, supp)
  }

  function SettledKey(tenant: string, period: string): string {
    tenant + "|" + period
  }

  // ----- Reading a concatenation back -----

  lemma SplitFirst(c: char, a: string, x: string, b: string, y: string)
    requires a + [c] + x == b + [c] + y && c !in a && c !in b
    ensures a == b && x == y
  {
    var s := a + [c] + x;
    assert s[|a|] == c && s[|b|] == c;
    assert forall i :: 0 <= i < |a| ==> s[i] == a[i];
    assert forall i :: 0 <= i < |b| ==> s[i] == b[i];
    assert s[..|a|] == a && s[..|b|] == b && s[|a| + 1..] == x && s[|b| + 1..] == y;
  }

  lemma SplitLast(c: char, a: string, x: string, b: string, y: string)
    requires a + [c] + x == b + [c] + y && c !in x && c !in y
    ensures a == b && x == y
  {
    var s := a + [c] + x;
    assert s[|a|] == c && s[|b|] == c;
    assert forall i :: |a| < i < |s| ==> s[i] == x[i - |a| - 1];
    assert forall i :: |b| < i < |s| ==> s[i] == y[i - |b| - 1];
    assert s[..|a|] == a && s[..|b|] == b && s[|a| + 1..] == x && s[|b| + 1..] == y;
  }

  lemma {:induction false} DigitsAreDigits(n: nat)
    ensures Digits(n) != "" && forall c :: c in Digits(n) ==> '0' <= c <= '9'
  {
    if n >= 10 {
      DigitsAreDigits(n / 10);
    }
  }

  lemma PlainTails(p: string, leg: LegName, q: string, leg': LegName)
    requires Tail(p, leg, 0) == Tail(q, leg', 0)
    ensures p == q && leg == leg'
  {
    assert Tail(p, leg, 0) == p + [':'] + Text(leg) && Tail(q, leg', 0) == q + [':'] + Text(leg');
    SplitLast(':', p, Text(leg), q, Text(leg'));
    assert Text(leg)[0] == Text(leg')[0];
  }

  lemma NumberedTails(p: string, leg: LegName, s: nat, q: string, leg': LegName, s': nat)
    requires s > 0 && s' > 0 && Tail(p, leg, s) == Tail(q, leg', s')
    ensures p == q && leg == leg' && s == s'
  {
    var a, b := p + ":" + Text(leg), q + ":" + Text(leg');
    assert Tail(p, leg, s) == (a + ":supp") + [':'] + Digits(s);
    assert Tail(q, leg', s') == (b + ":supp") + [':'] + Digits(s');
    DigitsAreDigits(s);
    DigitsAreDigits(s');
    SplitLast(':', a + ":supp", Digits(s), b + ":supp", Digits(s'));
    DigitsInjective(s, s');
    assert (a + ":supp")[..|a|] == a && (b + ":supp")[..|b|] == b;
    assert Tail(p, leg, 0) == a && Tail(q, leg', 0) == b;
    PlainTails(p, leg, q, leg');
  }

  lemma TextIsNoNumber(leg: LegName, n: nat)
    ensures Text(leg) != Digits(n)
  {
    DigitsAreDigits(n);
    assert Text(leg)[0] > '9' && Digits(n)[0] in Digits(n);
  }

  lemma MixedTails(p: string, leg: LegName, q: string, leg': LegName, s: nat)
    requires s > 0
    ensures Tail(p, leg, 0) != Tail(q, leg', s)
  {
    hide Digits;
    TextIsNoNumber(leg, s);
    DigitsAreDigits(s);
    var b := q + ":" + Text(leg') + ":supp";
    assert Tail(p, leg, 0) == p + [':'] + Text(leg) && Tail(q, leg', s) == b + [':'] + Digits(s);
    if Tail(p, leg, 0) == Tail(q, leg', s) {
      SplitLast(':', p, Text(leg), b, Digits(s));
    }
  }

  lemma DropPrefix(prefix: string, x: string, y: string)
    requires prefix + x == prefix + y
    ensures x == y
  {
    assert (prefix + x)[|prefix|..] == x && (prefix + y)[|prefix|..] == y;
  }

  lemma TailInjective(p: string, leg: LegName, s: nat, p': string, leg': LegName, s': nat)
    requires Tail(p, leg, s) == Tail(p', leg', s')
    ensures p == p' && leg == leg' && s == s'
  {
    if s == 0 && s' == 0 {
      PlainTails(p, leg, p', leg');
    } else if s > 0 && s' > 0 {
      NumberedTails(p, leg, s, p', leg', s');
    } else if s == 0 {
      MixedTails(p, leg, p', leg', s');
    } else {
      MixedTails(p', leg', p, leg, s);
    }
  }

  /** Two pending names are the same if and only if leg and supplement are, and tenant and period join to the same
      text. */
  lemma PendingNameSame(t: string, p: string, leg: LegName, s: nat, t': string, p': string, leg': LegName, s': nat)
    ensures PendingName(t, p, leg, s) == PendingName(t', p', leg', s')
       <==> Joined(t, p) == Joined(t', p') && leg == leg' && s == s'
  {
    if PendingName(t, p, leg, s) == PendingName(t', p', leg', s') {
      DropPrefix("posv-pend:", Tail(Joined(t, p), leg, s), Tail(Joined(t', p'), leg', s'));
      TailInjective(Joined(t, p), leg, s, Joined(t', p'), leg', s');
    }
  }

  /** Tenant ids without ':' keep settlements apart. */
  lemma JoinedColonFree(t: string, p: string, t': string, p': string)
    requires ':' !in t && ':' !in t' && Joined(t, p) == Joined(t', p')
    ensures t == t' && p == p'
  {
    SplitFirst(':', t, p, t', p');
  }

  /** A ':' can be read as part of the tenant or of the period. */
  lemma JoinedAmbiguous(a: string, b: string, c: string)
    ensures Joined(a + ":" + b, c) == Joined(a, b + ":" + c)
  {
  }
}
