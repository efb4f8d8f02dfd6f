/** The values that travel through the pipeline. */
module WorkItems {

  datatype Option<+T> = None | Some(value: T)

  /** One trade: price, position in the symbol list, time stamp, volume. */
  datatype Trade = Trade(p: real, s: nat, t: nat, v: real)

  datatype WorkItem = WorkItem(trade: Trade, eventTime: int)

  /** The volume that marks an item as "calculate the minute". */
  const DIRECTIVE_CALCULATE_MINUTE := -1.0

  /** Writer and Calculator both tell a trade from a directive by this test. */
  predicate IsTrade(item: WorkItem) {
    item.trade.v > DIRECTIVE_CALCULATE_MINUTE
  }
}
