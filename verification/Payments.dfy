/** What every table about payments agrees on: the status column of `payments`. */
module Payments {

  datatype Status = Pending | Authorized | Paid | Failed | Refunded | Cancelled
}
