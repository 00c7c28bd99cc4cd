/** The rows that flow through the pipeline. */
module Records {
  import opened Options
  import opened Dates

  /** A row of the `sales` table as read, limited to the ten columns the
      pipeline selects; each is text and each may be null. */
  datatype RawRecord = RawRecord(
    orderId: Option<string>,       // "Order ID"
    date: Option<string>,          // "Date"
    status: Option<string>,        // "Status"
    qty: Option<string>,           // "Qty"
    amount: Option<string>,        // "Amount"
    shipState: Option<string>,     // "ship-state"
    category: Option<string>,      // "Category"
    size: Option<string>,          // "Size"
    b2b: Option<string>,           // "B2B"
    promotionIds: Option<string>)  // "promotion-ids"

  /** A row after renaming and type conversion; every column stays
      nullable, as in the data frame's schema. */
  datatype SalesRecord = SalesRecord(
    orderId: Option<string>,
    orderDate: Option<Date>,
    status: Option<string>,
    quantity: Option<int>,
    amount: Option<real>,
    state: Option<string>,
    category: Option<string>,
    size: Option<string>,
    isB2b: Option<string>,
    promotionIds: Option<string>)
}
