/**
 * The display rules of one watchlist card (components/ETFCard.tsx): the volume tier,
 * the gain/loss colour, the tick-direction flash and the sign in front of the change.
 * Digit formatting (toFixed) is outside the model: a label is its scaled value and suffix.
 */
module EtfCard {
  import opened Types
  import opened TickEngine

  const Thousand: real := 1000.0
  const Million: real := 1000000.0
  const Billion: real := 1000000000.0

  /** A formatted volume: the number shown and the tier letter after it. */
  datatype VolumeLabel = VolumeLabel(scaled: real, suffix: string)

  /** What one unit of a tier stands for. */
  function TierScale(suffix: string): real {
    if suffix == "B" then Billion
    else if suffix == "M" then Million
    else if suffix == "K" then Thousand
    else 1.0
  }

  /** formatVolume: the largest tier the number reaches, and the number in units of that tier. */
  function FormatVolume(num: real): (fmt: VolumeLabel)
    ensures fmt.suffix == "B" <==> num >= Billion
    ensures fmt.suffix == "M" <==> Million <= num < Billion
    ensures fmt.suffix == "K" <==> Thousand <= num < Million
    ensures fmt.suffix == "" <==> num < Thousand
    ensures fmt.suffix == "" ==> fmt.scaled == num
    ensures fmt.suffix == "M" || fmt.suffix == "K" ==> 1.0 <= fmt.scaled < 1000.0
    ensures fmt.suffix == "B" ==> fmt.scaled >= 1.0
    ensures fmt.scaled * TierScale(fmt.suffix) == num
  {
    if num >= Billion then VolumeLabel(num / Billion, "B")
    else if num >= Million then VolumeLabel(num / Million, "M")
    else if num >= Thousand then VolumeLabel(num / Thousand, "K")
    else VolumeLabel(num, "")
  }

  /** isPositive: a zero change counts as a gain. */
  function IsPositive(e: ETF): bool {
    e.changePercent >= 0.0
  }

  /** colorClass: green for a gain, red for a loss. */
  function ColorClass(e: ETF): (c: string)
    ensures c == "text-green-500" <==> e.changePercent >= 0.0
    ensures c == "text-red-500" <==> e.changePercent < 0.0
  {
    if IsPositive(e) then "text-green-500" else "text-red-500"
  }

  /** flashClass: green when the last tick raised the price, red when it lowered it, none when it held. */
  function FlashClass(e: ETF): (c: string)
    ensures c == "animate-flash-green" <==> e.price > e.prevPrice
    ensures c == "animate-flash-red" <==> e.price < e.prevPrice
    ensures c == "" <==> e.price == e.prevPrice
  {
    if e.price != e.prevPrice then
      (if e.price > e.prevPrice then "animate-flash-green" else "animate-flash-red")
    else ""
  }

  /** The sign shown before the dollar change: "+" only for a strictly positive change. */
  function ChangeSign(e: ETF): (sign: string)
    ensures sign == "+" <==> e.change > 0.0
    ensures sign == "" <==> e.change <= 0.0
  {
    if e.change > 0.0 then "+" else ""
  }

  /**
   * After a tick the flash follows the random move: green exactly when the move was up,
   * red exactly when it was down and the price was above the floor, none otherwise.
   */
  lemma FlashFollowsMove(e: ETF, d: TickDraws)
    requires WellFormed(e)
    requires ValidTickDraws(d)
    ensures FlashClass(TickRecord(e, d)) == "animate-flash-green" <==> Move(d) > 0.0
    ensures FlashClass(TickRecord(e, d)) == "animate-flash-red" <==> Move(d) < 0.0 && e.price > PriceFloor
    ensures FlashClass(TickRecord(e, d)) == "" <==> Move(d) == 0.0 || (Move(d) < 0.0 && e.price == PriceFloor)
  {
    var m := Move(d);
    var r := TickRecord(e, d);
    assert e.price * (1.0 + m) == e.price + e.price * m;
    if m > 0.0 {
      assert e.price * m > 0.0;
    } else if m < 0.0 {
      assert e.price * m < 0.0;
    }
  }

  /**
   * After a tick the percentage and the dollar change have the same sign, so a card is
   * green exactly when its change is not negative, and "+" is shown only on a green card.
   */
  lemma TickedCardSignsAgree(e: ETF, d: TickDraws)
    requires WellFormed(e)
    requires ValidTickDraws(d)
    ensures IsPositive(TickRecord(e, d)) <==> TickRecord(e, d).change >= 0.0
    ensures ChangeSign(TickRecord(e, d)) == "+" <==> TickRecord(e, d).changePercent > 0.0
    ensures ChangeSign(TickRecord(e, d)) == "+" ==> ColorClass(TickRecord(e, d)) == "text-green-500"
  {
    var r := TickRecord(e, d);
    var open := ImpliedOpen(e);
    assert open > 0.0;
    if r.change > 0.0 {
      assert r.change / open > 0.0;
    } else if r.change < 0.0 {
      assert r.change / open < 0.0;
    } else {
      assert r.change / open == 0.0;
    }
  }
}
