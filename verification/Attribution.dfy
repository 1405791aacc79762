/** How one receipt's VAT is divided between the federal, state and local pools
    (services/pos-vat/handlers.go:21-26,163-188). */
module Attribution {
  import opened TruncatedDivision

  datatype Config = Config(mode: string, federalBps: int, stateBps: int)

  datatype Legs = Legs(federal: int, state: int, lga: int)

  datatype Attributed = Attributed(primary: Legs, shadow: Legs)

  const NO_LEGS: Legs := Legs(0, 0, 0)

  function RoundBpsHalfUp(amount: int, bps: int): int {
    if amount >= 0 then Quotient(amount * bps + 5000, 10000)
    else -Quotient(-amount * bps + 5000, 10000)
  }

  function ComputeAttribution(vat: int, cfg: Config): Attributed {
    var federal := RoundBpsHalfUp(vat, cfg.federalBps);
    var state := RoundBpsHalfUp(vat, cfg.stateBps);
    var shares := Legs(federal, state, vat - federal - state);
    if cfg.mode == "federal" then Attributed(Legs(vat, 0, 0), shares)
    else if cfg.mode == "dual_shadow" then Attributed(shares, Legs(vat, 0, 0))
    else Attributed(shares, NO_LEGS)
  }

  function Sum(legs: Legs): int {
    legs.federal + legs.state + legs.lga
  }

  /** The kobo amount nearest to x / 10000, a tie going up. */
  predicate Nearest(r: int, x: int) {
    -5000 < 10000 * r - x <= 5000
  }

  /** The result is the integer nearest to amount * bps / 10000, a tie going away from zero. */
  lemma RoundsToNearest(amount: int, bps: int, r: int)
    requires bps >= 0
    ensures r == RoundBpsHalfUp(amount, bps) <==>
      if amount >= 0 then Nearest(r, amount * bps)
      else -5000 <= 10000 * r - amount * bps < 5000
  {
    if amount >= 0 {
      Scaled(amount, bps);
    } else {
      Scaled(-amount, bps);
      assert -amount * bps == -(amount * bps);
    }
  }

  lemma Scaled(amount: int, bps: int)
    requires amount >= 0 && bps >= 0
    ensures amount * bps >= 0
  {
  }

  /** In every mode the legs add up to the whole VAT: all of it is federal in federal mode, and else the federal and the
      state leg are their shares, rounded to the nearest kobo. The local leg is the rounding remainder; while the two
      shares stay within the whole it falls below zero only when they exhaust it and both round a tie up. */
  lemma LegsExact(vat: int, cfg: Config)
    requires vat >= 0 && cfg.federalBps >= 0 && cfg.stateBps >= 0 && cfg.federalBps + cfg.stateBps <= 10000
    ensures var legs := ComputeAttribution(vat, cfg).primary;
      && Sum(legs) == vat && legs.federal >= 0 && legs.state >= 0 && legs.lga >= -1
      && (if cfg.mode == "federal" then legs.federal == vat && legs.state == 0
          else Nearest(legs.federal, vat * cfg.federalBps) && Nearest(legs.state, vat * cfg.stateBps))
      && (legs.lga < 0 <==> cfg.mode != "federal" && cfg.federalBps + cfg.stateBps == 10000
                            && vat * cfg.federalBps % 10000 == 5000)
  {
    RemainderBounds(vat, cfg.federalBps, cfg.stateBps, vat * cfg.federalBps, vat * cfg.stateBps);
  }

  /** Two shares of `vat`, each rounded half up, against what remains. */
  lemma RemainderBounds(vat: int, f: int, s: int, x: int, y: int)
    requires vat >= 0 && f >= 0 && s >= 0 && f + s <= 10000 && x == vat * f && y == vat * s
    ensures x >= 0 && y >= 0
    ensures var rest := vat - (x + 5000) / 10000 - (y + 5000) / 10000;
      rest >= -1 && (rest < 0 <==> f + s == 10000 && x % 10000 == 5000)
  {
    Scaled(vat, f);
    Scaled(vat, s);
    assert x + y == vat * (f + s);
    if f + s == 10000 {
      Complements(vat, x, y);
    } else {
      Below(vat, f + s, x, y);
    }
  }

  lemma Complements(vat: int, x: int, y: int)
    requires x >= 0 && y >= 0 && x + y == vat * 10000
    ensures var rest := vat - (x + 5000) / 10000 - (y + 5000) / 10000;
      rest >= -1 && (rest < 0 <==> x % 10000 == 5000)
  {
    assert y == 10000 * (vat - x / 10000) - x % 10000;
  }

  lemma Below(vat: int, t: int, x: int, y: int)
    requires vat >= 0 && x >= 0 && y >= 0 && 0 <= t < 10000 && x + y == vat * t
    ensures vat - (x + 5000) / 10000 - (y + 5000) / 10000 >= 0
  {
    Scaled(vat, 9999 - t);
    assert vat * (9999 - t) == vat * 9999 - vat * t;
    RoundedWithin(vat, x, y);
  }

  lemma RoundedWithin(vat: int, x: int, y: int)
    requires vat >= 0 && x >= 0 && y >= 0 && x + y <= 9999 * vat
    ensures vat - (x + 5000) / 10000 - (y + 5000) / 10000 >= 0
  {
  }

  /** Shares beyond the whole leave the local leg negative for some VAT. */
  lemma SharesBeyondWhole(cfg: Config) returns (vat: int)
    requires cfg.federalBps >= 0 && cfg.stateBps >= 0 && cfg.federalBps + cfg.stateBps > 10000 && cfg.mode != "federal"
    ensures vat >= 0 && ComputeAttribution(vat, cfg).primary.lga < 0
  {
    vat := 10000;
  }

  /** The shadow view mirrors the other regime: the shares in federal mode, the whole as federal in the dual mode, and
      nothing otherwise. */
  lemma ShadowMirrors(vat: int, cfg: Config)
    requires vat >= 0 && cfg.federalBps >= 0 && cfg.stateBps >= 0
    ensures var shadow := ComputeAttribution(vat, cfg).shadow;
      if cfg.mode == "federal" then
        && Sum(shadow) == vat
        && Nearest(shadow.federal, vat * cfg.federalBps) && Nearest(shadow.state, vat * cfg.stateBps)
      else if cfg.mode == "dual_shadow" then shadow.federal == vat && shadow.state == 0 && shadow.lga == 0
      else shadow.federal == 0 && shadow.state == 0 && shadow.lga == 0
  {
    RoundsToNearest(vat, cfg.federalBps, RoundBpsHalfUp(vat, cfg.federalBps));
    RoundsToNearest(vat, cfg.stateBps, RoundBpsHalfUp(vat, cfg.stateBps));
  }
}
