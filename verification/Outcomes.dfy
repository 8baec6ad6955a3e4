/** How a request through the gateway ends; what ends it says so, and settlement goes by it. */
module Outcomes {
  datatype Outcome =
    | Unset       // still running
    | Rejected    // refused before the queue, or the line was full
    | QueueLost   // a place in the line was held and lost
    | EngineErr   // the engine could not be asked, or said no
    | Served
    | Cut         // the engine was asked, and somebody stopped
}
