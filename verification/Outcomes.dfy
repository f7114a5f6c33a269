/** How calls end, and flags of records that the models enumerate. */
module Outcomes {
  /** A flag; two constructors keep the solver from enumerating records of booleans. */
  datatype Flag = No | Yes

  function Of(b: bool): Flag { if b then Yes else No }

  /** A request to a durable object: answered, executed without its answer arriving, or not sent. */
  datatype Delivery = Delivered | ReplyLost | NotSent

  /** A statement or store call: it works, or throws without or with its effect. */
  datatype Fault = Works | FailsBefore | FailsAfter
}
