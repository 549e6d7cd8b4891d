/** The engine's enumerations (namespaces Side, Actions, OrderType and the
    order status) and the order-type names. */
module Enums {
  datatype Side = Buy | Sell

  datatype Action = Add | Modify | Cancel

  datatype OrderType =
    | Market
    | FillOrKill
    | ImmediateOrCancel
    | GoodAfterTime
    | GoodForDay
    | GoodTillDate
    | AllOrNone
    | GoodTillCancel
    | MarketOnOpen
    | MarketOnClose

  /** `Unset` stands for the status an Order has before anything assigns it:
      the constructor leaves m_orderStatus uninitialised. */
  datatype OrderStatus = Unset | Fulfilled

  /** The free function getType: the name of each order type. Its "Unknown"
      default branch cannot be reached with a valid enumerator. */
  function GetType(t: OrderType): string
  {
    match t
    case Market => "Market"
    case FillOrKill => "FillOrKill"
    case ImmediateOrCancel => "ImmediateOrCancel"
    case GoodAfterTime => "GoodAfterTime"
    case GoodForDay => "GoodForDay"
    case GoodTillDate => "GoodTillDate"
    case AllOrNone => "AllOrNone"
    case GoodTillCancel => "GoodTillCancel"
    case MarketOnOpen => "MarketOnOpen"
    case MarketOnClose => "MarketOnClose"
  }

  function SideName(s: Side): string
  {
    match s
    case Buy => "Buy"
    case Sell => "Sell"
  }

  function ActionName(a: Action): string
  {
    match a
    case Add => "Add"
    case Modify => "Modify"
    case Cancel => "Cancel"
  }
}
