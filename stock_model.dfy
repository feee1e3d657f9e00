/** The values the trade processor works on: trade records (`Stock`) and the
    ranking results it produces (`StockRanking`). Only the fields that the
    processor reads are modelled; equality is structural, which stands in
    for the value equality the records are assumed to have when they are
    collected into sets. */
module StockModel {

  /** Order type of a trade: `B` is a buy (outgoing), `S` a sell (incoming). */
  datatype OrderType = B | S

  /** A calendar date without a time component. */
  datatype LocalDate = LocalDate(year: int, month: int, day: int)

  /** One trade record. `totalTradeAmt` is exact (an arbitrary-precision
      decimal in the source, a `real` here); `updatedSettlementDate` is the
      settlement date the record is attributed to. */
  datatype Stock = Stock(
    orderType: OrderType,
    updatedSettlementDate: LocalDate,
    totalTradeAmt: real,
    entity: string)

  /** One line of a day ranking: the position of `entity` among the trades
      settled on `date`, counted from 1. */
  datatype StockRanking = StockRanking(rank: int, entity: string, date: LocalDate)

  /** The distinct settlement dates of `xs`. */
  function SettlementDates(xs: seq<Stock>): set<LocalDate> {
    set s | s in xs :: s.updatedSettlementDate
  }

  /** The dates of a non-empty input are its first record's date and the rest's. */
  lemma SettlementDatesStep(xs: seq<Stock>)
    requires xs != []
    ensures SettlementDates(xs) == {xs[0].updatedSettlementDate} + SettlementDates(xs[1..])
  {
    assert forall s :: s in xs <==> s == xs[0] || s in xs[1..];
  }
}
