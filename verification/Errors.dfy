/** The exceptions the program tells apart and the fixed codes it reports for them. */
module Errors {
  /** `Unexpected` is any other ordinary exception, `Interrupt` an interpreter shutdown signal. */
  datatype Error =
    | HermesAuth | HermesTimeout | HermesProtocol | HermesHttp
    | RailwayAuth | RailwayTimeout | RailwayHttp | RailwayGraphQL
    | Unexpected | Interrupt
  {
    predicate IsHermes() {
      HermesAuth? || HermesTimeout? || HermesProtocol? || HermesHttp?
    }
  }

  /** Fixed codes: the only failure detail that leaves the process. */
  datatype FailureReason = AUTH | TIMEOUT | PROTOCOL | HTTP | RAILWAY | INTERNAL

  function ReasonOf(e: Error): FailureReason {
    match e
    case HermesAuth => AUTH
    case HermesTimeout => TIMEOUT
    case HermesProtocol => PROTOCOL
    case HermesHttp => HTTP
    case RailwayAuth => RAILWAY
    case RailwayTimeout => RAILWAY
    case RailwayHttp => RAILWAY
    case RailwayGraphQL => RAILWAY
    case _ => INTERNAL
  }
}
