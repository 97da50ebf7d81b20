/** How a call to a store or to the chain can end. */
module Faults {

  /** It works, or it throws without or with having taken effect. */
  datatype Fault = Works | Before | After
}
